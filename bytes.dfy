/** Byte-level building blocks of the writer's output streams: the
    fixed-width little-endian packing of Python's struct module, the
    unsigned and signed LEB128 encodings of the Dalvik Executable format,
    and 4-byte alignment padding. Each encoder comes with its decoder and a
    round-trip lemma. */
module Bytes {
  import opened Wrappers

  type byte = x: int | 0 <= x < 256

  function Pow256(n: nat): (r: nat)
    ensures r >= 1
  {
    if n == 0 then 1 else 256 * Pow256(n - 1)
  }

  /** The n least significant bytes of x, least significant first. */
  function LittleEndian(x: nat, n: nat): (r: seq<byte>)
    ensures |r| == n
  {
    if n == 0 then [] else [x % 256] + LittleEndian(x / 256, n - 1)
  }

  function FromLittleEndian(s: seq<byte>): nat
  {
    if |s| == 0 then 0 else s[0] + 256 * FromLittleEndian(s[1..])
  }

  lemma {:induction false} FromLittleEndianBound(s: seq<byte>)
    ensures FromLittleEndian(s) < Pow256(|s|)
  {
    if |s| > 0 {
      FromLittleEndianBound(s[1..]);
    }
  }

  lemma {:induction false} LittleEndianRoundTrip(x: nat, n: nat)
    requires x < Pow256(n)
    ensures FromLittleEndian(LittleEndian(x, n)) == x
  {
    if n > 0 {
      assert x / 256 < Pow256(n - 1) by {
        assert x < 256 * Pow256(n - 1);
      }
      LittleEndianRoundTrip(x / 256, n - 1);
      assert LittleEndian(x, n)[1..] == LittleEndian(x / 256, n - 1);
    }
  }

  /** struct.pack with an unsigned little-endian format of n bytes
      ('<B', '<H', '<I', '<Q'): raises struct.error outside 0 .. 256^n - 1. */
  function PackUnsigned(x: int, n: nat): (r: Result<seq<byte>>)
    ensures r.Ok? <==> 0 <= x < Pow256(n)
    ensures r.Ok? ==> |r.value| == n && FromLittleEndian(r.value) == x
    ensures r.Err? ==> r.error == StructError
  {
    if 0 <= x < Pow256(n) then
      LittleEndianRoundTrip(x, n);
      Ok(LittleEndian(x, n))
    else
      Err(StructError)
  }

  function PackUByte(x: int): Result<seq<byte>> { PackUnsigned(x, 1) }
  function PackUShort(x: int): Result<seq<byte>> { PackUnsigned(x, 2) }
  function PackUInt(x: int): Result<seq<byte>> { PackUnsigned(x, 4) }
  function PackULongLong(x: int): Result<seq<byte>> { PackUnsigned(x, 8) }

  /** The signed reading of a little-endian two's-complement byte string. */
  function FromLittleEndianSigned(s: seq<byte>): int
  {
    var u := FromLittleEndian(s);
    if 2 * u >= Pow256(|s|) then u - Pow256(|s|) else u
  }

  /** struct.pack('<h', x): a 16-bit two's-complement value. */
  function PackShort(x: int): (r: Result<seq<byte>>)
    ensures r.Ok? <==> -32768 <= x < 32768
    ensures r.Ok? ==> |r.value| == 2 && FromLittleEndianSigned(r.value) == x
  {
    if -32768 <= x < 32768 then
      var u := if x < 0 then x + 65536 else x;
      assert Pow256(2) == 65536;
      LittleEndianRoundTrip(u, 2);
      Ok(LittleEndian(u, 2))
    else
      Err(StructError)
  }

  /** Unsigned LEB128: seven bits per byte, least significant group first,
      the high bit set on every byte but the last. */
  function ULeb128(v: nat): (r: seq<byte>)
    ensures |r| >= 1
    decreases v
  {
    if v < 128 then [v] else [v % 128 + 128] + ULeb128(v / 128)
  }

  /** s holds the bytes u from position p on. */
  predicate At(s: seq<byte>, p: nat, u: seq<byte>)
    decreases |u|
  {
    p + |u| <= |s| && (|u| == 0 || (s[p] == u[0] && At(s, p + 1, u[1..])))
  }

  /** Bytes at the front of a stream. */
  lemma AtFront(u: seq<byte>, rest: seq<byte>)
    ensures At(u + rest, 0, u)
  {
    assert [] + u + rest == u + rest;
    AtShift([], u, rest);
  }

  lemma {:induction false} AtShift(pre: seq<byte>, u: seq<byte>, rest: seq<byte>)
    ensures At(pre + u + rest, |pre|, u)
    decreases |u|
  {
    if |u| > 0 {
      var s := pre + u + rest;
      assert s == (pre + [u[0]]) + u[1..] + rest;
      AtShift(pre + [u[0]], u[1..], rest);
    }
  }

  /** Two strings held one after the other. */
  lemma {:induction false} AtAppend(s: seq<byte>, p: nat, a: seq<byte>, b: seq<byte>)
    requires At(s, p, a + b)
    ensures At(s, p, a) && At(s, p + |a|, b)
    decreases |a|
  {
    if |a| == 0 {
      assert a + b == b;
    } else {
      assert (a + b)[0] == a[0];
      assert (a + b)[1..] == a[1..] + b;
      AtAppend(s, p + 1, a[1..], b);
    }
  }

  /** At is the slice of s starting at p. */
  lemma {:induction false} AtSlice(s: seq<byte>, p: nat, u: seq<byte>)
    ensures At(s, p, u) <==> p + |u| <= |s| && s[p..p + |u|] == u
    decreases |u|
  {
    if |u| > 0 && p + |u| <= |s| {
      AtSlice(s, p + 1, u[1..]);
      assert s[p..p + |u|] == [s[p]] + s[p + 1..p + |u|];
      assert u == [u[0]] + u[1..];
    }
  }

  /** Bytes found in a stream stay where they are when more is appended. */
  lemma AtExtend(s: seq<byte>, p: nat, u: seq<byte>, t: seq<byte>)
    requires At(s, p, u)
    ensures At(s + t, p, u)
  {
    AtSlice(s, p, u);
    assert (s + t)[p..p + |u|] == s[p..p + |u|];
    AtSlice(s + t, p, u);
  }

  /** The first byte held, and the rest one position on. */
  lemma AtHead(s: seq<byte>, p: nat, u: seq<byte>)
    requires |u| > 0 && At(s, p, u)
    ensures s[p] == u[0] && At(s, p + 1, u[1..])
  {
  }

  /** Reads one unsigned LEB128 value from position p of s: the value and the
      number of bytes it took, or None when s ends inside the value. */
  function ReadULeb128(s: seq<byte>, p: nat): Option<(nat, nat)>
    decreases |s| - p
  {
    if p >= |s| then None
    else if s[p] < 128 then Some((s[p], 1))
    else
      match ReadULeb128(s, p + 1)
      case None => None
      case Some((v, k)) => Some((s[p] - 128 + 128 * v, k + 1))
  }

  lemma {:induction false} ULeb128RoundTrip(v: nat, s: seq<byte>, p: nat)
    requires At(s, p, ULeb128(v))
    ensures ReadULeb128(s, p) == Some((v, |ULeb128(v)|))
    decreases v
  {
    AtHead(s, p, ULeb128(v));
    if v >= 128 {
      assert ULeb128(v)[1..] == ULeb128(v / 128);
      ULeb128RoundTrip(v / 128, s, p + 1);
    }
  }

  /** Concatenation regroups. Stated once here so that proofs about
      encoded bytes need not unfold the encoders to regroup them. */
  lemma AppendAssoc<T>(a: seq<T>, b: seq<T>, c: seq<T>)
    ensures a + (b + c) == a + b + c
  {
  }

  function SLebMeasure(v: int): nat
  {
    if v >= 0 then v else -v - 1
  }

  /** Signed LEB128. Dafny's % and / with the positive divisor 128 are the
      floor remainder and floor quotient, as Python's v & 0x7f and v >> 7. */
  function SLeb128(v: int): (r: seq<byte>)
    ensures |r| >= 1
    decreases SLebMeasure(v)
  {
    var low := v % 128;
    var high := v / 128;
    if (high == 0 && low < 64) || (high == -1 && low >= 64) then [low]
    else [low + 128] + SLeb128(high)
  }

  /** Reads one signed LEB128 value at position p; the last byte's seven
      bits are sign-extended. */
  function ReadSLeb128(s: seq<byte>, p: nat): Option<(int, nat)>
    decreases |s| - p
  {
    if p >= |s| then None
    else if s[p] < 128 then
      var last: int := s[p];
      Some((if last >= 64 then last - 128 else last, 1))
    else
      match ReadSLeb128(s, p + 1)
      case None => None
      case Some((v, k)) => Some((s[p] - 128 + 128 * v, k + 1))
  }

  lemma {:induction false} SLeb128RoundTrip(v: int, s: seq<byte>, p: nat)
    requires At(s, p, SLeb128(v))
    ensures ReadSLeb128(s, p) == Some((v, |SLeb128(v)|))
    decreases SLebMeasure(v)
  {
    var low := v % 128;
    var high := v / 128;
    assert v == low + 128 * high;
    AtHead(s, p, SLeb128(v));
    if !((high == 0 && low < 64) || (high == -1 && low >= 64)) {
      assert SLeb128(v)[1..] == SLeb128(high);
      SLeb128RoundTrip(high, s, p + 1);
    }
  }

  /** The number of zero bytes that brings a stream of length n to a multiple of 4. */
  function Padding(n: nat): (p: nat)
    ensures p < 4 && (n + p) % 4 == 0
  {
    (4 - n % 4) % 4
  }

  /** OutputStream.align(): zero-pad the stream to a 4-byte boundary. */
  function Align4(buf: seq<byte>): (r: seq<byte>)
    ensures |r| % 4 == 0 && |buf| <= |r| < |buf| + 4
    ensures r[..|buf|] == buf
    ensures forall i | |buf| <= i < |r| :: r[i] == 0
  {
    buf + seq(Padding(|buf|), _ => 0)
  }

  lemma Align4Aligned(buf: seq<byte>)
    requires |buf| % 4 == 0
    ensures Align4(buf) == buf
  {
  }

  /** The concatenation of a sequence of byte strings. */
  function Flatten(parts: seq<seq<byte>>): (r: seq<byte>)
  {
    if |parts| == 0 then [] else Flatten(parts[..|parts| - 1]) + parts[|parts| - 1]
  }
}
