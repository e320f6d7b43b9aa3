/**
 Incremental MD5 (src/lsapilib.c:4132-4235) against the one-shot definition of
 RFC 1321, on a host of either byte order.
 */
module Md5 {
  import opened Common
  import opened Md5Spec
  import opened Md5Transform

  const TWO64: nat := TWO32 * TWO32

  // ----- Words and blocks -----

  lemma {:induction false} WordsAt(bytes: seq<Byte>, k: nat)
    requires |bytes| % 4 == 0 && 4 * k + 4 <= |bytes|
    ensures Words(bytes)[k] == Pack(bytes[4 * k], bytes[4 * k + 1], bytes[4 * k + 2], bytes[4 * k + 3])
  {
    hide Pack;
    if k > 0 {
      WordsAt(bytes[4..], k - 1);
    }
  }

  lemma {:induction false} WordsConcat(a: seq<Byte>, b: seq<Byte>)
    requires |a| % 4 == 0 && |b| % 4 == 0
    ensures Words(a + b) == Words(a) + Words(b)
  {
    hide Pack;
    if a == [] {
      assert a + b == b;
    } else {
      assert (a + b)[4..] == a[4..] + b;
      WordsConcat(a[4..], b);
    }
  }

  lemma {:induction false} FoldConcat(r: Abcd, u: seq<Word>, v: seq<Word>)
    requires |u| % 16 == 0 && |v| % 16 == 0
    ensures Fold(r, u + v) == Fold(Fold(r, u), v)
    decreases |u|
  {
    hide Compress;
    if u == [] {
      assert u + v == v;
    } else {
      assert (u + v)[..16] == u[..16];
      assert (u + v)[16..] == u[16..] + v;
      FoldConcat(Compress(r, u[..16]), u[16..], v);
    }
  }

  lemma FoldOne(r: Abcd, x: seq<Word>)
    requires |x| == 16
    ensures Fold(r, x) == Compress(r, x)
  {
    hide Compress;
    assert x[..16] == x;
    assert Fold(Compress(r, x), x[16..]) == Compress(r, x);
  }

  /** The registers after all complete blocks of a message. */
  function Registers(blocks: seq<Byte>): Abcd
    requires |blocks| % 64 == 0
  {
    Fold(INITIAL, Words(blocks))
  }

  lemma OneMoreBlock(blocks: seq<Byte>, block: seq<Byte>)
    requires |blocks| % 64 == 0 && |block| == 64
    ensures Registers(blocks + block) == Compress(Registers(blocks), Words(block))
  {
    hide Compress, Fold, Words;
    WordsConcat(blocks, block);
    FoldConcat(INITIAL, Words(blocks), Words(block));
    FoldOne(Registers(blocks), Words(block));
  }

  // ----- The host's byte order -----

  /** A 32-bit load. */
  function Load(bigEndian: bool, b: seq<Byte>): Word
    requires |b| == 4
  {
    if bigEndian then Pack(b[3], b[2], b[1], b[0]) else Pack(b[0], b[1], b[2], b[3])
  }

  /** A 32-bit store. */
  function Store(bigEndian: bool, w: Word): (b: seq<Byte>)
    ensures |b| == 4
  {
    var u := Unpack(w);
    if bigEndian then [u[3], u[2], u[1], u[0]] else u
  }

  lemma Reassemble(w: Word)
    ensures (((((((w >> 24) & 0xff) as Byte) as Word) << 8) | ((((w >> 16) & 0xff) as Byte) as Word)) << 16)
            | ((((((w >> 8) & 0xff) as Byte) as Word) << 8) | (((w & 0xff) as Byte) as Word)) == w
  {
  }

  lemma PackUnpack(w: Word)
    ensures var u := Unpack(w); Pack(u[0], u[1], u[2], u[3]) == w
  {
    Reassemble(w);
  }

  lemma LoadStore(bigEndian: bool, w: Word)
    ensures Load(bigEndian, Store(bigEndian, w)) == w
  {
    PackUnpack(w);
    hide Pack, Unpack;
  }

  /** The sixteen words the transform reads from the block buffer. */
  function NativeWords(bigEndian: bool, b: seq<Byte>): (x: seq<Word>)
    requires |b| == 64
    ensures |x| == 16
  {
    seq(16, k requires 0 <= k < 16 => Load(bigEndian, b[4 * k..4 * k + 4]))
  }

  /** The first `longs` words of b, read natively, are the little-endian words of a. */
  predicate Reversed(bigEndian: bool, a: seq<Byte>, b: seq<Byte>, longs: nat)
    requires |a| == |b| && 4 * longs <= |a|
  {
    && (forall k :: 0 <= k < longs ==>
          Load(bigEndian, b[4 * k..4 * k + 4]) == Pack(a[4 * k], a[4 * k + 1], a[4 * k + 2], a[4 * k + 3]))
    && b[4 * longs..] == a[4 * longs..]
  }

  lemma ReversedWords(bigEndian: bool, a: seq<Byte>, b: seq<Byte>)
    requires |a| == |b| == 64 && Reversed(bigEndian, a, b, 16)
    ensures NativeWords(bigEndian, b) == Words(a)
  {
    hide Load, Pack;
    forall k | 0 <= k < 16
      ensures NativeWords(bigEndian, b)[k] == Words(a)[k]
    {
      WordsAt(a, k);
    }
  }

  // ----- memmove and byteReverse -----

  method StoreWord(bigEndian: bool, dst: array<Byte>, at: nat, w: Word)
    requires at + 4 <= dst.Length
    modifies dst
    ensures dst[..] == old(dst[..at]) + Store(bigEndian, w) + old(dst[at + 4..])
  {
    hide Store;
    Copy(dst, at, Store(bigEndian, w));
  }

  /** byteReverse: little-endian words become native ones, in place. */
  method ByteReverse(bigEndian: bool, a: array<Byte>, longs: nat)
    requires 0 < longs && 4 * longs <= a.Length
    modifies a
    ensures Reversed(bigEndian, old(a[..]), a[..], longs)
  {
    hide Load, Store, Pack;
    var i := 0;
    while i < longs
      invariant 0 <= i <= longs
      invariant Reversed(bigEndian, old(a[..]), a[..], i)
    {
      var t := Pack(a[4 * i], a[4 * i + 1], a[4 * i + 2], a[4 * i + 3]);
      ghost var before := a[..];
      StoreWord(bigEndian, a, 4 * i, t);
      LoadStore(bigEndian, t);
      ReverseOne(bigEndian, old(a[..]), before, a[..], i, t);
      i := i + 1;
    }
  }

  lemma ReverseOne(bigEndian: bool, a: seq<Byte>, b: seq<Byte>, c: seq<Byte>, i: nat, t: Word)
    requires |a| == |b| == |c| && 4 * i + 4 <= |a| && Reversed(bigEndian, a, b, i)
    requires t == Pack(b[4 * i], b[4 * i + 1], b[4 * i + 2], b[4 * i + 3])
    requires c == b[..4 * i] + Store(bigEndian, t) + b[4 * i + 4..]
    requires Load(bigEndian, Store(bigEndian, t)) == t
    ensures Reversed(bigEndian, a, c, i + 1)
  {
    hide Load, Store, Pack;
    assert c[4 * i..4 * i + 4] == Store(bigEndian, t);
    forall m | 4 * i <= m < |a|
      ensures b[m] == a[m]
    {
      assert b[m] == b[4 * i..][m - 4 * i] == a[4 * i..][m - 4 * i];
    }
    forall k | 0 <= k < i + 1
      ensures Load(bigEndian, c[4 * k..4 * k + 4]) == Pack(a[4 * k], a[4 * k + 1], a[4 * k + 2], a[4 * k + 3])
    {
      if k < i {
        assert c[4 * k..4 * k + 4] == b[4 * k..4 * k + 4];
      }
    }
  }

  // ----- The bit counter -----

  /** The two counter words hold 8 * n modulo 2^64. */
  predicate Counts(low: nat, high: nat, n: nat) {
    low < TWO32 && high < TWO32 && low + TWO32 * high == 8 * n % TWO64
  }

  function NextLow(low: nat, len: nat): nat {
    (low + 8 * len % TWO32) % TWO32
  }

  function NextHigh(low: nat, high: nat, len: nat): nat {
    ((high + if NextLow(low, len) < low then 1 else 0) % TWO32 + len / 0x2000_0000) % TWO32
  }

  lemma LowCarries(low: nat, add: nat)
    requires low < TWO32 && add < TWO32
    ensures var low' := (low + add) % TWO32;
      low + add == low' + TWO32 * if low' < low then 1 else 0
  {
  }

  lemma HighWraps(high: nat, carry: nat, top: nat) returns (w: nat)
    ensures high + carry + top == ((high + carry) % TWO32 + top) % TWO32 + TWO32 * w
  {
    w := (high + carry) / TWO32 + ((high + carry) % TWO32 + top) / TWO32;
  }

  lemma LengthSplits(len: nat)
    ensures 8 * len == TWO32 * (len / 0x2000_0000) + 8 * len % TWO32
  {
  }

  lemma Remainder(x: nat, q: nat, r: nat)
    requires x == TWO64 * q + r && r < TWO64
    ensures x % TWO64 == r
  {
  }

  /** The carry from the low word to the high word is right for every length. */
  lemma CounterAdvances(low: nat, high: nat, n: nat, len: nat)
    requires Counts(low, high, n) && len < TWO32
    ensures Counts(NextLow(low, len), NextHigh(low, high, len), n + len)
  {
    var low', high' := NextLow(low, len), NextHigh(low, high, len);
    var add, top := 8 * len % TWO32, len / 0x2000_0000;
    var carry := if low' < low then 1 else 0;
    LowCarries(low, add);
    LengthSplits(len);
    var w := HighWraps(high, carry, top);
    var wraps := 8 * n / TWO64;
    assert 8 * n == TWO64 * wraps + low + TWO32 * high;
    Total(8 * n, 8 * len, low, high, add, top, carry, low', high', wraps, w);
    Remainder(8 * (n + len), wraps + w, low' + TWO32 * high');
  }

  lemma Total(bits: nat, more: nat, low: nat, high: nat, add: nat, top: nat, carry: nat,
              low': nat, high': nat, wraps: nat, w: nat)
    requires bits == TWO64 * wraps + low + TWO32 * high
    requires more == TWO32 * top + add
    requires low + add == low' + TWO32 * carry
    requires high + carry + top == high' + TWO32 * w
    ensures bits + more == TWO64 * (wraps + w) + (low' + TWO32 * high')
  {
  }

  /** The buffered byte count can be read off the low counter word. */
  lemma CounterTellsLeftover(low: nat, high: nat, n: nat)
    requires Counts(low, high, n)
    ensures low / 8 % 64 == n % 64
  {
    var wraps := 8 * n / TWO64;
    assert 8 * n == TWO64 * wraps + low + TWO32 * high;
    assert low == 8 * (n - 0x2000_0000 * (TWO32 * wraps + high));
    assert low / 8 == n - 0x2000_0000 * (TWO32 * wraps + high);
    assert n == low / 8 + 64 * (0x80_0000 * (TWO32 * wraps + high));
  }

  // ----- The context -----

  function Whole(n: nat): (m: nat)
    ensures m <= n < m + 64 && m % 64 == 0 && n - m == n % 64
  {
    n / 64 * 64
  }

  /** What the context means: registers over the whole blocks, the leftover buffered, the length counted. */
  predicate Represents(r: Abcd, input: seq<Byte>, low: nat, high: nat, message: seq<Byte>) {
    && |input| == 64
    && r == Registers(message[..Whole(|message|)])
    && input[..|message| % 64] == message[Whole(|message|)..]
    && Counts(low, high, |message|)
  }

  lemma CutAt(message: seq<Byte>, cut: nat)
    requires cut <= |message| < cut + 64 && cut % 64 == 0
    ensures Whole(|message|) == cut && |message| % 64 == |message| - cut
  {
  }

  lemma Opened(r: Abcd, input: seq<Byte>, low: nat, high: nat, message: seq<Byte>) returns (cut: nat)
    requires Represents(r, input, low, high, message)
    ensures cut <= |message| < cut + 64 && cut % 64 == 0 && |message| % 64 == |message| - cut
    ensures r == Registers(message[..cut]) && input[..|message| - cut] == message[cut..]
    ensures Counts(low, high, |message|)
  {
    cut := Whole(|message|);
  }

  lemma Closed(r: Abcd, input: seq<Byte>, low: nat, high: nat, message: seq<Byte>, cut: nat)
    requires cut <= |message| < cut + 64 && cut % 64 == 0 && |input| == 64
    requires r == Registers(message[..cut]) && input[..|message| - cut] == message[cut..]
    requires Counts(low, high, |message|)
    ensures Represents(r, input, low, high, message)
  {
    CutAt(message, cut);
  }

  lemma CounterIsLength(low: nat, high: nat, n: nat)
    requires Counts(low, high, n)
    ensures low == 8 * n % TWO32 && high == 8 * n / TWO32 % TWO32
  {
    var wraps := 8 * n / TWO64;
    assert 8 * n == TWO32 * (TWO32 * wraps + high) + low;
    assert 8 * n / TWO32 == TWO32 * wraps + high;
  }

  /** The words of the last block: 14 read from bytes, then the two length words. */
  lemma LastBlock(bigEndian: bool, a: seq<Byte>, b: seq<Byte>, c: seq<Byte>, w: seq<Word>)
    requires |a| == |b| == 64 && |w| == 2 && Reversed(bigEndian, a, b, 14)
    requires c == b[..56] + Store(bigEndian, w[0]) + Store(bigEndian, w[1])
    ensures NativeWords(bigEndian, c) == Words(a[..56]) + w
  {
    hide Load, Store, Pack;
    LoadStore(bigEndian, w[0]);
    LoadStore(bigEndian, w[1]);
    assert c[56..60] == Store(bigEndian, w[0]) && c[60..64] == Store(bigEndian, w[1]);
    forall k | 0 <= k < 16
      ensures NativeWords(bigEndian, c)[k] == (Words(a[..56]) + w)[k]
    {
      if k < 14 {
        WordsAt(a[..56], k);
        assert c[4 * k..4 * k + 4] == b[4 * k..4 * k + 4];
      }
    }
  }

  lemma LastFold(padded: seq<Byte>, cut: nat, w: seq<Word>)
    requires |padded| == cut + 56 && cut % 64 == 0 && |w| == 2
    ensures Fold(INITIAL, Words(padded) + w) == Compress(Registers(padded[..cut]), Words(padded[cut..]) + w)
  {
    hide Compress, Words, Fold;
    assert padded == padded[..cut] + padded[cut..];
    WordsConcat(padded[..cut], padded[cut..]);
    var last := Words(padded[cut..]) + w;
    assert Words(padded) + w == Words(padded[..cut]) + last;
    FoldConcat(INITIAL, Words(padded[..cut]), last);
    FoldOne(Registers(padded[..cut]), last);
  }

  /** byteReverse on one register followed by its native bytes: low-order byte first. */
  function Emitted(bigEndian: bool, w: Word): (d: seq<Byte>) {
    var n := Store(bigEndian, w);
    Store(bigEndian, Pack(n[0], n[1], n[2], n[3]))
  }

  lemma EmittedIsUnpacked(bigEndian: bool, w: Word)
    ensures Emitted(bigEndian, w) == Unpack(w)
  {
    var u := Unpack(w);
    PackUnpack(w);
    if bigEndian {
      UnpackPack(u[3], u[2], u[1], u[0]);
    }
    hide Pack, Unpack;
  }

  lemma UnpackPack(b0: Byte, b1: Byte, b2: Byte, b3: Byte)
    ensures Unpack(Pack(b0, b1, b2, b3)) == [b0, b1, b2, b3]
  {
  }

  class Md5Context {
    const bigEndian: bool  // the host's byte order
    const buf: array<Word>
    const input: array<Byte>
    var bits0: nat
    var bits1: nat

    ghost function Regs(): Abcd
      requires buf.Length == 4
      reads buf
    {
      Abcd(buf[0], buf[1], buf[2], buf[3])
    }

    /** This context has been fed exactly `message`. */
    ghost predicate Holds(message: seq<Byte>)
      reads this, buf, input
    {
      buf.Length == 4 && input.Length == 64 && Represents(Regs(), input[..], bits0, bits1, message)
    }

    constructor Init(bigEndian: bool)
      ensures this.bigEndian == bigEndian && Holds([]) && fresh(buf) && fresh(input)
    {
      this.bigEndian := bigEndian;
      buf := new Word[4];
      input := new Byte[64];
      bits0, bits1 := 0, 0;
      new;
      buf[0], buf[1], buf[2], buf[3] := 0x67452301, 0xefcdab89, 0x98badcfe, 0x10325476;
      ghost var none: seq<Byte> := [];
      assert none[..Whole(0)] == none && Registers(none) == INITIAL;
      assert input[..0] == [];
    }

    /** byteReverse and lsapi_MD5Transform on the full block buffer. */
    method ProcessBlock()
      requires buf.Length == 4 && input.Length == 64
      modifies buf, input
      ensures Regs() == Compress(old(Regs()), Words(old(input[..])))
    {
      hide Compress, Words, Load, Pack;
      ghost var block := input[..];
      ByteReverse(bigEndian, input, 16);
      ReversedWords(bigEndian, block, input[..]);
      Transform(buf, NativeWords(bigEndian, input[..]));
    }

    /** The first statements of lsapi_MD5Update. */
    method AddBits(len: nat) returns (t: nat)
      requires bits0 < TWO32 && bits1 < TWO32 && len < TWO32
      modifies this`bits0, this`bits1
      ensures bits0 == NextLow(old(bits0), len) && bits1 == NextHigh(old(bits0), old(bits1), len)
      ensures t == old(bits0) / 8 % 64
    {
      t := bits0;
      bits0 := (t + 8 * len % TWO32) % TWO32;
      if bits0 < t {
        bits1 := (bits1 + 1) % TWO32;
      }
      bits1 := (bits1 + len / 0x2000_0000) % TWO32;
      t := t / 8 % 64;
    }

    /** The bit counter of lsapi_MD5Update; t is the number of buffered bytes. */
    method CountBits(len: nat, ghost n: nat) returns (t: nat)
      requires Counts(bits0, bits1, n) && len < TWO32
      modifies this`bits0, this`bits1
      ensures Counts(bits0, bits1, n + len) && t == n % 64
    {
      CounterAdvances(bits0, bits1, n, len);
      CounterTellsLeftover(bits0, bits1, n);
      assert bits0 < TWO32 && bits1 < TWO32;
      hide Counts, NextLow, NextHigh;
      t := AddBits(len);
    }

    /** memmove the rest of a block behind the t buffered bytes, and process it. */
    method FillBlock(t: nat, rest: seq<Byte>, ghost whole: seq<Byte>, ghost cut: nat)
      requires buf.Length == 4 && input.Length == 64 && t + |rest| == 64
      requires cut % 64 == 0 && cut + 64 <= |whole|
      requires Regs() == Registers(whole[..cut])
      requires input[..t] == whole[cut..cut + t] && rest == whole[cut + t..cut + 64]
      modifies buf, input
      ensures Regs() == Registers(whole[..cut + 64])
    {
      hide Registers, Compress, Words;
      Copy(input, t, rest);
      assert input[..] == whole[cut..cut + 64];
      ProcessBlock();
      NextBlock(whole, cut);
    }

    /** The 64-byte loop of lsapi_MD5Update and the copy of what is left. */
    method Absorb(data: seq<Byte>, ghost whole: seq<Byte>, ghost start: nat)
      requires buf.Length == 4 && input.Length == 64
      requires start % 64 == 0 && start <= |whole| && data == whole[start..]
      requires Regs() == Registers(whole[..start]) && Counts(bits0, bits1, |whole|)
      modifies buf, input
      ensures Holds(whole)
    {
      hide Registers, Counts, Represents;
      ghost var cut := start;
      var p := 0;
      while |data| - p >= 64
        invariant 0 <= p <= |data| && cut == start + p && cut % 64 == 0
        invariant Regs() == Registers(whole[..cut])
      {
        FillBlock(0, data[p..p + 64], whole, cut);
        p := p + 64;
        cut := cut + 64;
      }
      Copy(input, 0, data[p..]);
      assert input[..|data| - p] == whole[cut..];
      Closed(Regs(), input[..], bits0, bits1, whole, cut);
    }

    /** What lies where in the message so far, of which t bytes are buffered, and the new data. */
    lemma SplitWhole(message: seq<Byte>, data: seq<Byte>, cut: nat, t: nat)
      requires cut + t == |message|
      ensures var whole := message + data;
        && whole[..cut] == message[..cut] && whole[cut..cut + t] == message[cut..]
        && (t == 0 ==> whole[cut..] == data) && whole[cut..] == whole[cut..cut + t] + data
        && (t + |data| >= 64 && t <= 64 ==>
              whole[cut + t..cut + 64] == data[..64 - t] && whole[cut + 64..] == data[64 - t..])
    {
    }

    /** Data that does not fill the block whose first t bytes are buffered. */
    method AppendShort(t: nat, data: seq<Byte>, ghost whole: seq<Byte>, ghost cut: nat)
      requires buf.Length == 4 && input.Length == 64 && t + |data| < 64
      requires cut % 64 == 0 && cut + t + |data| == |whole|
      requires Regs() == Registers(whole[..cut]) && Counts(bits0, bits1, |whole|)
      requires input[..t] == whole[cut..cut + t] && whole[cut..] == whole[cut..cut + t] + data
      modifies input
      ensures Holds(whole)
    {
      hide Registers, Counts, Represents;
      Copy(input, t, data);
      assert input[..|whole| - cut] == whole[cut..];
      Closed(Regs(), input[..], bits0, bits1, whole, cut);
    }

    /** lsapi_MD5Update, for any data whose length is an unsigned int. */
    method Update(ghost message: seq<Byte>, data: seq<Byte>)
      requires Holds(message) && |data| < TWO32
      modifies this, buf, input
      ensures Holds(message + data)
    {
      hide Registers, Counts, Represents;
      ghost var whole := message + data;
      ghost var cut := Opened(Regs(), input[..], bits0, bits1, message);
      var t := CountBits(|data|, |message|);
      SplitWhole(message, data, cut, t);
      if t == 0 {
        Absorb(data, whole, cut);
      } else if |data| < 64 - t {
        AppendShort(t, data, whole, cut);
      } else {
        var p := 64 - t;
        FillBlock(t, data[..p], whole, cut);
        Absorb(data[p..], whole, cut + 64);
      }
    }

    /** Write the block buffer from `at` on: the given byte, then `zeros` zero bytes. */
    method Pad(at: nat, first: seq<Byte>, zeros: nat)
      requires input.Length == 64 && at + |first| + zeros <= 64
      modifies input
      ensures input[..at + |first| + zeros] == old(input[..at]) + first + Repeat(0 as Byte, zeros)
    {
      Copy(input, at, first);
      Copy(input, at + |first|, Repeat(0 as Byte, zeros));
    }

    /** The padded message from position `cut` on, where m bytes of the message are left. */
    lemma PaddedParts(message: seq<Byte>, cut: nat, m: nat)
      requires cut + m == |message| && cut % 64 == 0 && m < 64
      ensures var padded, left := Padded(message), message[cut..] + [0x80];
        && |padded| >= cut && padded[..cut] == message[..cut]
        && if m < 56 then padded[cut..] == left + Repeat(0 as Byte, 55 - m)
           else |padded| == cut + 120 && padded[cut..cut + 64] == left + Repeat(0 as Byte, 63 - m)
                && padded[cut + 64..] == Repeat(0 as Byte, 56)
    {
      assert |message| % 64 == m;
      var zeros := (119 - m) % 64;
      assert zeros == if m < 56 then 55 - m else 119 - m;
    }

    /** Padding up to the length: after it, the block buffer holds the last 56 bytes. */
    method PadMessage(ghost message: seq<Byte>) returns (ghost cut: nat)
      requires Holds(message)
      modifies buf, input
      ensures cut % 64 == 0 && |Padded(message)| == cut + 56
      ensures Regs() == Registers(Padded(message)[..cut])
      ensures input[..56] == Padded(message)[cut..]
    {
      hide Registers, Compress, Words, Represents;
      ghost var padded := Padded(message);
      cut := Opened(Regs(), input[..], bits0, bits1, message);
      CounterTellsLeftover(bits0, bits1, |message|);
      PaddedParts(message, cut, |message| - cut);
      hide Counts, Padded;
      var count := bits0 / 8 % 64;
      var p := count;
      count := 63 - count;
      if count < 8 {
        Pad(p, [0x80], count);
        assert input[..] == padded[cut..cut + 64];
        ProcessBlock();
        NextBlock(padded, cut);
        Pad(0, [], 56);
        cut := cut + 64;
      } else {
        Pad(p, [0x80], count - 8);
      }
    }

    /** memset of the whole context. */
    method Wipe()
      requires buf.Length == 4 && input.Length == 64
      modifies this, buf, input
      ensures bits0 == 0 && bits1 == 0 && buf[..] == [0, 0, 0, 0] && input[..] == Repeat(0 as Byte, 64)
    {
      bits0, bits1 := 0, 0;
      buf[0], buf[1], buf[2], buf[3] := 0, 0, 0, 0;
      Copy(input, 0, Repeat(0 as Byte, 64));
    }

    /** lsapi_MD5Final: the digest of everything the context has been fed. */
    method Final(ghost message: seq<Byte>) returns (digest: seq<Byte>)
      requires Holds(message)
      modifies this, buf, input
      ensures digest == Digest(message)
      ensures bits0 == 0 && bits1 == 0 && buf[..] == [0, 0, 0, 0] && input[..] == Repeat(0 as Byte, 64)
    {
      hide Registers, Compress, Words, Fold, Load, Store, Pack, Unpack, Padded, Represents, Emitted;
      ghost var old0 := Opened(Regs(), input[..], bits0, bits1, message);
      CounterIsLength(bits0, bits1, |message|);
      ghost var padded := Padded(message);
      ghost var cut := PadMessage(message);
      ghost var block := input[..];
      ByteReverse(bigEndian, input, 14);
      ghost var reversed := input[..];
      StoreWord(bigEndian, input, 56, bits0 as Word);
      StoreWord(bigEndian, input, 60, bits1 as Word);
      LastBlock(bigEndian, block, reversed, input[..], LengthWords(|message|));
      LastFold(padded, cut, LengthWords(|message|));
      Transform(buf, NativeWords(bigEndian, input[..]));
      EmittedIsUnpacked(bigEndian, buf[0]);
      EmittedIsUnpacked(bigEndian, buf[1]);
      EmittedIsUnpacked(bigEndian, buf[2]);
      EmittedIsUnpacked(bigEndian, buf[3]);
      digest := Emitted(bigEndian, buf[0]) + Emitted(bigEndian, buf[1])
                + Emitted(bigEndian, buf[2]) + Emitted(bigEndian, buf[3]);
      Wipe();
    }
  }

  lemma NextBlock(message: seq<Byte>, cut: nat)
    requires cut + 64 <= |message| && cut % 64 == 0
    ensures Registers(message[..cut + 64]) == Compress(Registers(message[..cut]), Words(message[cut..cut + 64]))
  {
    hide Registers, Compress, Words;
    OneMoreBlock(message[..cut], message[cut..cut + 64]);
    assert message[..cut + 64] == message[..cut] + message[cut..cut + 64];
  }

  /** Streaming: however a message is cut into updates, the digest is that of the whole. */
  method HashPieces(bigEndian: bool, pieces: seq<seq<Byte>>) returns (digest: seq<Byte>)
    requires forall k :: 0 <= k < |pieces| ==> |pieces[k]| < TWO32
    ensures digest == Digest(Concat(pieces))
  {
    hide Represents, Digest;
    var ctx := new Md5Context.Init(bigEndian);
    for i := 0 to |pieces|
      invariant fresh(ctx) && fresh(ctx.buf) && fresh(ctx.input)
      invariant ctx.Holds(Concat(pieces[..i]))
    {
      ctx.Update(Concat(pieces[..i]), pieces[i]);
      assert pieces[..i + 1][..i] == pieces[..i];
    }
    assert pieces[..|pieces|] == pieces;
    digest := ctx.Final(Concat(pieces));
  }
}
