/**
 MD5 as RFC 1321 defines it: padding and length (sections 3.1 and 3.2), the
 registers (3.3), the table-driven rounds (3.4) and the output (3.5).
 */
module Md5Spec {
  import opened Common

  type Byte = bv8
  type Word = bv32

  /** The four registers. */
  datatype Abcd = Abcd(a: Word, b: Word, c: Word, d: Word)

  const INITIAL := Abcd(0x67452301, 0xefcdab89, 0x98badcfe, 0x10325476)

  /** F, G, H and I, by round. */
  function Aux(round: nat, x: Word, y: Word, z: Word): Word {
    if round == 0 then (x & y) | (!x & z)
    else if round == 1 then (x & z) | (y & !z)
    else if round == 2 then x ^ y ^ z
    else y ^ (x | !z)
  }

  function RotateLeft(x: Word, n: nat): Word
    requires n < 32
  {
    (x << n) | (x >> (32 - n))
  }

  /** The index of the message word used by operation i. */
  function K(i: nat): (k: nat)
    ensures k < 16
  {
    if i < 16 then i
    else if i < 32 then (1 + 5 * (i - 16)) % 16
    else if i < 48 then (5 + 3 * (i - 32)) % 16
    else (7 * (i - 48)) % 16
  }

  /** The rotation of operation i. */
  function S(i: nat): (n: nat)
    ensures 0 < n < 32
  {
    var column := i % 4;
    if i < 16 then [7, 12, 17, 22][column]
    else if i < 32 then [5, 9, 14, 20][column]
    else if i < 48 then [4, 11, 16, 23][column]
    else [6, 10, 15, 21][column]
  }

  /** T[1] to T[64] by round: the integer part of 4294967296 times abs(sin(i)). */
  const T1: seq<Word> := [
    0xd76aa478, 0xe8c7b756, 0x242070db, 0xc1bdceee,
    0xf57c0faf, 0x4787c62a, 0xa8304613, 0xfd469501,
    0x698098d8, 0x8b44f7af, 0xffff5bb1, 0x895cd7be,
    0x6b901122, 0xfd987193, 0xa679438e, 0x49b40821]

  const T2: seq<Word> := [
    0xf61e2562, 0xc040b340, 0x265e5a51, 0xe9b6c7aa,
    0xd62f105d, 0x02441453, 0xd8a1e681, 0xe7d3fbc8,
    0x21e1cde6, 0xc33707d6, 0xf4d50d87, 0x455a14ed,
    0xa9e3e905, 0xfcefa3f8, 0x676f02d9, 0x8d2a4c8a]

  const T3: seq<Word> := [
    0xfffa3942, 0x8771f681, 0x6d9d6122, 0xfde5380c,
    0xa4beea44, 0x4bdecfa9, 0xf6bb4b60, 0xbebfbc70,
    0x289b7ec6, 0xeaa127fa, 0xd4ef3085, 0x04881d05,
    0xd9d4d039, 0xe6db99e5, 0x1fa27cf8, 0xc4ac5665]

  const T4: seq<Word> := [
    0xf4292244, 0x432aff97, 0xab9423a7, 0xfc93a039,
    0x655b59c3, 0x8f0ccc92, 0xffeff47d, 0x85845dd1,
    0x6fa87e4f, 0xfe2ce6e0, 0xa3014314, 0x4e0811a1,
    0xf7537e82, 0xbd3af235, 0x2ad7d2bb, 0xeb86d391]

  function T(i: nat): Word
    requires i < 64
  {
    if i < 16 then T1[i] else if i < 32 then T2[i - 16] else if i < 48 then T3[i - 32] else T4[i - 48]
  }

  /** Addition of words, modulo 2^32. */
  function Add(x: Word, y: Word): Word {
    x + y
  }

  /** [abcd k s i]: a = b + ((a + Aux(b, c, d) + X[k] + T[i]) <<< s). */
  function Op(round: nat, a: Word, b: Word, c: Word, d: Word, m: Word, t: Word, s: nat): Word
    requires s < 32
  {
    b + RotateLeft(a + Aux(round, b, c, d) + m + t, s)
  }

  /** Operation i; the registers change roles after each operation. */
  function Operation(i: nat, r: Abcd, x: seq<Word>): Abcd
    requires i < 64 && |x| == 16
  {
    Abcd(r.d, Op(i / 16, r.a, r.b, r.c, r.d, x[K(i)], T(i), S(i)), r.b, r.c)
  }

  /** The first n operations. */
  function Operations(n: nat, r: Abcd, x: seq<Word>): Abcd
    requires n <= 64 && |x| == 16
  {
    if n == 0 then r else Operation(n - 1, Operations(n - 1, r, x), x)
  }

  function Compress(r: Abcd, x: seq<Word>): Abcd
    requires |x| == 16
  {
    var r' := Operations(64, r, x);
    Abcd(Add(r.a, r'.a), Add(r.b, r'.b), Add(r.c, r'.c), Add(r.d, r'.d))
  }

  /** The registers after all 16-word blocks. */
  function Fold(r: Abcd, words: seq<Word>): Abcd
    requires |words| % 16 == 0
    decreases |words|
  {
    if words == [] then r else Fold(Compress(r, words[..16]), words[16..])
  }

  /** A word from four bytes, low-order byte first. */
  function Pack(b0: Byte, b1: Byte, b2: Byte, b3: Byte): Word {
    ((((b3 as Word) << 8) | (b2 as Word)) << 16) | (((b1 as Word) << 8) | (b0 as Word))
  }

  function Unpack(w: Word): (b: seq<Byte>)
    ensures |b| == 4
  {
    [(w & 0xff) as Byte, ((w >> 8) & 0xff) as Byte, ((w >> 16) & 0xff) as Byte, ((w >> 24) & 0xff) as Byte]
  }

  function Words(bytes: seq<Byte>): (w: seq<Word>)
    requires |bytes| % 4 == 0
    ensures |w| == |bytes| / 4
  {
    if bytes == [] then [] else [Pack(bytes[0], bytes[1], bytes[2], bytes[3])] + Words(bytes[4..])
  }

  /** Section 3.1: a single 1 bit, then 0 bits up to 56 bytes modulo 64. */
  function Padded(message: seq<Byte>): (p: seq<Byte>)
    ensures |p| % 64 == 56 && message <= p
  {
    message + [0x80] + Repeat(0 as Byte, (119 - |message| % 64) % 64)
  }

  /** Section 3.2: the length in bits modulo 2^64, as two words, low-order word first. */
  function LengthWords(byteCount: nat): (w: seq<Word>)
    ensures |w| == 2
  {
    var bits := 8 * byteCount;
    [(bits % TWO32) as Word, (bits / TWO32 % TWO32) as Word]
  }

  /** Section 3.5: the registers, low-order byte of A first. */
  function Output(r: Abcd): (d: seq<Byte>)
    ensures |d| == 16
  {
    Unpack(r.a) + Unpack(r.b) + Unpack(r.c) + Unpack(r.d)
  }

  lemma WholeBlocks(n: nat)
    requires n % 64 == 56
    ensures n % 4 == 0 && (n / 4 + 2) % 16 == 0
  {
    var k := n / 64;
    assert n == 4 * (16 * k + 14);
    assert n / 4 == 16 * k + 14;
    assert n / 4 + 2 == 16 * (k + 1);
  }

  /** The padded message as words, with the length appended. */
  function Blocks(message: seq<Byte>): (w: seq<Word>)
    ensures |w| % 16 == 0
  {
    WholeBlocks(|Padded(message)|);
    Words(Padded(message)) + LengthWords(|message|)
  }

  function Digest(message: seq<Byte>): (d: seq<Byte>)
    ensures |d| == 16
  {
    Output(Fold(INITIAL, Blocks(message)))
  }
}
