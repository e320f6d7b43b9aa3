/** 16- and 32-bit integers as bytes, in either order. */
module Endian {
  import opened Common

  function Reverse4(b: seq<byte>): (r: seq<byte>)
    requires |b| == 4
    ensures |r| == 4
  {
    [b[3], b[2], b[1], b[0]]
  }

  function Le16(n: nat): (b: seq<byte>)
    requires n < TWO16
    ensures |b| == 2
  {
    [n % 256, n / 256]
  }

  function Be16(n: nat): (b: seq<byte>)
    requires n < TWO16
    ensures |b| == 2
  {
    [n / 256, n % 256]
  }

  function FromLe16(b: seq<byte>): (n: nat)
    requires |b| == 2
    ensures n < TWO16
  {
    b[0] as int + 256 * b[1] as int
  }

  function FromBe16(b: seq<byte>): (n: nat)
    requires |b| == 2
    ensures n < TWO16
  {
    256 * b[0] as int + b[1] as int
  }

  function Le32(n: nat): (b: seq<byte>)
    requires n < TWO32
    ensures |b| == 4
  {
    [n % 256, n / 256 % 256, n / 65536 % 256, n / 16777216]
  }

  function FromLe32(b: seq<byte>): (n: nat)
    requires |b| == 4
    ensures n < TWO32
  {
    b[0] as int + 256 * b[1] as int + 65536 * b[2] as int + 16777216 * b[3] as int
  }

  /** The two's complement reading of a 32-bit pattern. */
  function Signed32(n: nat): (x: int)
    requires n < TWO32
    ensures -TWO31 <= x < TWO31
  {
    if n < TWO31 then n else n - TWO32
  }

  function Unsigned32(x: int): (n: nat)
    requires -TWO31 <= x < TWO31
    ensures n < TWO32
  {
    if x >= 0 then x else x + TWO32
  }

  lemma Le32RoundTrip(n: nat)
    requires n < TWO32
    ensures FromLe32(Le32(n)) == n
  {
    var a, b, c := n / 256, n / 65536, n / 16777216;
    assert b == a / 256;
    assert c == b / 256;
  }

  lemma Le16RoundTrip(n: nat)
    requires n < TWO16
    ensures FromLe16(Le16(n)) == n && FromBe16(Be16(n)) == n
  {
  }
}
