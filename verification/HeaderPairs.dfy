/**
 The header pairs a filter passes as one string (src/http_utils.h:83-122): a count, a table
 of sizes, and the texts, each followed by a NUL.  Integers are little-endian.
 */
module HeaderPairs {
  import opened Common
  import opened Endian

  datatype Pair = Pair(key: seq<byte>, value: seq<byte>)

  // ----- What the code computes -----

  function SizeAt(data: seq<byte>, at: nat): (n: nat)
    requires at + 4 <= |data|
    ensures n < TWO32
  {
    FromLe32(data[at..at + 4])
  }

  /** A size and its terminator, added as 32-bit numbers. */
  function Step32(size: nat): nat {
    (size + 1) % TWO32
  }

  /** One pair at p; None if it does not end within the data. */
  function PairAt(data: seq<byte>, p: nat, keySize: nat, valueSize: nat): Option<(Pair, nat)>
  {
    if p + keySize + 1 > |data| then None
    else
      var q := p + Step32(keySize);
      if q + valueSize + 1 > |data| then None
      else Some((Pair(data[p..p + keySize], data[q..q + valueSize]), q + Step32(valueSize)))
  }

  /** The pairs from number i on, whose texts begin at p. */
  function PairsFrom(data: seq<byte>, i: nat, n: nat, p: nat): seq<Pair>
    requires i <= n && 4 + 8 * n <= |data|
    decreases n - i
  {
    if i == n then []
    else match PairAt(data, p, SizeAt(data, 4 + 8 * i), SizeAt(data, 8 + 8 * i))
      case None => []
      case Some((pair, next)) => [pair] + PairsFrom(data, i + 1, n, next)
  }

  function Decode(data: seq<byte>): seq<Pair> {
    if |data| < 4 then [] else
    var n := SizeAt(data, 0);
    if 4 + n * 8 > |data| then [] else PairsFrom(data, 0, n, 4 + 8 * n)
  }

  /** memcpy into a uint32_t. */
  method Load32(data: seq<byte>, at: nat) returns (n: nat)
    requires at + 4 <= |data|
    ensures n == SizeAt(data, at)
  {
    n := FromLe32(data[at..at + 4]);
  }

  method ReadSizes(data: seq<byte>, n: nat) returns (sizes: array<(nat, nat)>, p: nat)
    requires 4 + 8 * n <= |data|
    ensures fresh(sizes) && sizes.Length == n && p == 4 + 8 * n
    ensures forall i :: 0 <= i < n ==> sizes[i] == (SizeAt(data, 4 + 8 * i), SizeAt(data, 8 + 8 * i))
  {
    hide FromLe32;
    sizes := new (nat, nat)[n];
    p := 4;
    for i := 0 to n
      invariant p == 4 + 8 * i
      invariant forall j :: 0 <= j < i ==> sizes[j] == (SizeAt(data, 4 + 8 * j), SizeAt(data, 8 + 8 * j))
    {
      var keySize := Load32(data, p);
      var valueSize := Load32(data, p + 4);
      sizes[i] := (keySize, valueSize);
      p := p + 8;
    }
  }

  /** The body of the second loop. */
  method ReadPair(data: seq<byte>, p: nat, keySize: nat, valueSize: nat) returns (r: Option<(Pair, nat)>)
    ensures r == PairAt(data, p, keySize, valueSize)
  {
    if p + keySize + 1 > |data| {
      return None;
    }
    var key := data[p..p + keySize];
    var q := p + (keySize + 1) % TWO32;
    if q + valueSize + 1 > |data| {
      return None;
    }
    r := Some((Pair(key, data[q..q + valueSize]), q + (valueSize + 1) % TWO32));
  }

  /** deserialize_header_pairs. */
  method Deserialize(data: seq<byte>) returns (out: seq<Pair>)
    ensures out == Decode(data)
  {
    hide FromLe32, PairAt;
    out := [];
    if |data| < 4 {
      return;
    }
    var n := Load32(data, 0);
    if 4 + n * 8 > |data| {
      return;
    }
    var sizes, p := ReadSizes(data, n);
    ghost var table := sizes[..];
    for i := 0 to n
      invariant sizes[..] == table
      invariant Decode(data) == out + PairsFrom(data, i, n, p)
    {
      var pair := ReadPair(data, p, sizes[i].0, sizes[i].1);
      if pair.None? {
        assert out + [] == out;
        return;
      }
      ghost var rest := PairsFrom(data, i + 1, n, pair.value.1);
      assert out + ([pair.value.0] + rest) == out + [pair.value.0] + rest;
      out := out + [pair.value.0];
      p := pair.value.1;
    }
  }

  // ----- The marshalled form -----

  /** The sizes can be written. */
  predicate Fits(pair: Pair) {
    |pair.key| < TWO32 && |pair.value| < TWO32
  }

  predicate AllFit(pairs: seq<Pair>) {
    |pairs| < TWO32 && forall i :: 0 <= i < |pairs| ==> Fits(pairs[i])
  }

  function Sizes(pairs: seq<Pair>): (b: seq<byte>)
    requires AllFit(pairs)
    ensures |b| == 8 * |pairs|
  {
    if pairs == [] then []
    else Le32(|pairs[0].key|) + Le32(|pairs[0].value|) + Sizes(pairs[1..])
  }

  function Text(pair: Pair): seq<byte> {
    pair.key + [0] + pair.value + [0]
  }

  function Texts(pairs: seq<Pair>): seq<byte> {
    if pairs == [] then [] else Text(pairs[0]) + Texts(pairs[1..])
  }

  /** marshalPairs. */
  function Marshal(pairs: seq<Pair>): seq<byte>
    requires AllFit(pairs)
  {
    Le32(|pairs|) + Sizes(pairs) + Texts(pairs)
  }

  /** How many leading pairs have all of their text within the first `room` bytes of the texts. */
  function Complete(pairs: seq<Pair>, room: int): (m: nat)
    ensures m <= |pairs|
  {
    if pairs == [] || |Text(pairs[0])| > room then 0
    else 1 + Complete(pairs[1..], room - |Text(pairs[0])|)
  }

  /** Complete is the largest such number. */
  lemma {:induction false} CompleteIsLongest(pairs: seq<Pair>, room: nat)
    ensures var m := Complete(pairs, room);
      |Texts(pairs[..m])| <= room && (m < |pairs| ==> |Texts(pairs[..m + 1])| > room)
  {
    var m := Complete(pairs, room);
    if pairs != [] {
      if |Text(pairs[0])| <= room {
        CompleteIsLongest(pairs[1..], room - |Text(pairs[0])|);
        assert pairs[..m][1..] == pairs[1..][..m - 1];
        if m < |pairs| {
          assert pairs[..m + 1][1..] == pairs[1..][..m];
        }
      } else {
        assert pairs[..1] == [pairs[0]];
        assert pairs[..1][1..] == [];
      }
    }
  }

  /** data holds s at `at`, as far as it reaches. */
  predicate Begins(data: seq<byte>, at: nat, s: seq<byte>) {
    at <= |data| && data[at..] <= s
  }

  lemma PairRead(data: seq<byte>, p: nat, pair: Pair, rest: seq<byte>)
    requires |Text(pair)| < TWO32 && Begins(data, p, Text(pair) + rest)
    ensures var r := PairAt(data, p, |pair.key|, |pair.value|);
      if |Text(pair)| > |data| - p then r == None
      else r == Some((pair, p + |Text(pair)|)) && Begins(data, p + |Text(pair)|, rest)
  {
    var k, v := |pair.key|, |pair.value|;
    var s := Text(pair) + rest;
    assert forall i :: p <= i < |data| ==> data[i] == data[p..][i - p] == s[i - p];
    if |Text(pair)| <= |data| - p {
      assert data[p..p + k] == pair.key;
      assert data[p + k + 1..p + k + 1 + v] == pair.value;
      assert data[p + |Text(pair)|..] == rest[..|data| - p - |Text(pair)|];
    }
  }

  lemma SizeRead(data: seq<byte>, at: nat, size: nat)
    requires size < TWO32 && Holds(data, at, Le32(size))
    ensures SizeAt(data, at) == size
  {
    Le32RoundTrip(size);
  }

  /** The first entry of the table of sizes, and the rest of it. */
  lemma TableRead(data: seq<byte>, at: nat, pairs: seq<Pair>)
    requires AllFit(pairs) && pairs != [] && Holds(data, at, Sizes(pairs)) && at + 8 <= |data|
    ensures SizeAt(data, at) == |pairs[0].key| && SizeAt(data, at + 4) == |pairs[0].value|
    ensures Holds(data, at + 8, Sizes(pairs[1..]))
  {
    hide Holds, SizeAt, Le32;
    var key, value := Le32(|pairs[0].key|), Le32(|pairs[0].value|);
    HoldsBoth(data, at, key + value, Sizes(pairs[1..]));
    HoldsBoth(data, at, key, value);
    SizeRead(data, at, |pairs[0].key|);
    SizeRead(data, at + 4, |pairs[0].value|);
  }

  lemma {:induction false} PairsRead(data: seq<byte>, i: nat, n: nat, p: nat, pairs: seq<Pair>)
    requires AllFit(pairs) && |Texts(pairs)| < TWO32 && 4 + 8 * n <= |data| && i + |pairs| == n
    requires Holds(data, 4 + 8 * i, Sizes(pairs)) && Begins(data, p, Texts(pairs))
    ensures PairsFrom(data, i, n, p) == pairs[..Complete(pairs, |data| - p)]
    decreases |pairs|
  {
    hide PairAt, SizeAt, Begins, Text, Holds, Sizes;
    if pairs != [] {
      TableRead(data, 4 + 8 * i, pairs);
      PairRead(data, p, pairs[0], Texts(pairs[1..]));
      BeginsWithin(data, p, Texts(pairs));
      if |Text(pairs[0])| <= |data| - p {
        PairsRead(data, i + 1, n, p + |Text(pairs[0])|, pairs[1..]);
      }
    }
  }

  lemma BeginsWithin(data: seq<byte>, at: nat, s: seq<byte>)
    requires Begins(data, at, s)
    ensures at <= |data|
  {
  }

  lemma CountRead(pairs: seq<Pair>, k: nat)
    requires AllFit(pairs) && 4 <= k <= |Marshal(pairs)|
    ensures SizeAt(Marshal(pairs)[..k], 0) == |pairs|
  {
    assert Marshal(pairs)[..k][0..4] == Le32(|pairs|);
    Le32RoundTrip(|pairs|);
  }

  lemma CutSlices(count: seq<byte>, sizes: seq<byte>, texts: seq<byte>, k: nat)
    requires |count| + |sizes| <= k <= |count| + |sizes| + |texts|
    ensures var data := (count + sizes + texts)[..k];
      Holds(data, |count|, sizes) && Begins(data, |count| + |sizes|, texts)
  {
    var data := (count + sizes + texts)[..k];
    var front := count + sizes;
    assert data[..|front|] == front;
    assert data[|count|..|count| + |sizes|] == front[|count|..] == sizes;
    assert data[|count| + |sizes|..] == texts[..k - |count| - |sizes|];
  }

  lemma WholeTable(pairs: seq<Pair>, k: nat)
    requires AllFit(pairs) && 4 + 8 * |pairs| <= k <= |Marshal(pairs)|
    ensures var data := Marshal(pairs)[..k];
      && SizeAt(data, 0) == |pairs| && Holds(data, 4, Sizes(pairs)) && Begins(data, 4 + 8 * |pairs|, Texts(pairs))
  {
    CountRead(pairs, k);
    hide Begins, SizeAt, Sizes, Holds, Texts, Le32;
    CutSlices(Le32(|pairs|), Sizes(pairs), Texts(pairs), k);
  }

  lemma TableCut(data: seq<byte>, n: nat)
    requires |data| < 4 + 8 * n && (|data| < 4 || SizeAt(data, 0) == n)
    ensures Decode(data) == []
  {
    hide SizeAt, PairsFrom;
  }

  lemma DecodeReads(data: seq<byte>, n: nat)
    requires 4 + 8 * n <= |data| && SizeAt(data, 0) == n
    ensures Decode(data) == PairsFrom(data, 0, n, 4 + 8 * n)
  {
    hide SizeAt, PairsFrom;
  }

  lemma TableWhole(data: seq<byte>, pairs: seq<Pair>)
    requires AllFit(pairs) && |Texts(pairs)| < TWO32 && 4 + 8 * |pairs| <= |data| && SizeAt(data, 0) == |pairs|
    requires Holds(data, 4, Sizes(pairs)) && Begins(data, 4 + 8 * |pairs|, Texts(pairs))
    ensures Decode(data) == pairs[..Complete(pairs, |data| - (4 + 8 * |pairs|))]
  {
    hide SizeAt, Decode, PairsFrom, Complete, Holds, Begins, Sizes, Texts, AllFit;
    DecodeReads(data, |pairs|);
    PairsRead(data, 0, |pairs|, 4 + 8 * |pairs|, pairs);
  }

  /**
   A marshalled list cut after k bytes gives the pairs that are wholly within them if the
   size table is, and nothing otherwise.
   */
  lemma CutDecodes(pairs: seq<Pair>, k: nat)
    requires AllFit(pairs) && k <= |Marshal(pairs)| < TWO32
    ensures var table := 4 + 8 * |pairs|;
      Decode(Marshal(pairs)[..k]) == if k < table then [] else pairs[..Complete(pairs, k - table)]
  {
    assert |Texts(pairs)| < TWO32;
    hide Decode, Complete, Marshal, SizeAt, Holds, Begins, Sizes, Texts, AllFit;
    if k >= 4 {
      CountRead(pairs, k);
    }
    if k < 4 + 8 * |pairs| {
      TableCut(Marshal(pairs)[..k], |pairs|);
    } else {
      WholeTable(pairs, k);
      TableWhole(Marshal(pairs)[..k], pairs);
    }
  }

  lemma {:induction false} AllComplete(pairs: seq<Pair>, room: int)
    requires room >= |Texts(pairs)|
    ensures Complete(pairs, room) == |pairs|
  {
    if pairs != [] {
      AllComplete(pairs[1..], room - |Text(pairs[0])|);
    }
  }

  /** Decoding inverts marshalling. */
  lemma RoundTrip(pairs: seq<Pair>)
    requires AllFit(pairs) && |Marshal(pairs)| < TWO32
    ensures Decode(Marshal(pairs)) == pairs
  {
    var b := Marshal(pairs);
    assert |b| == 4 + 8 * |pairs| + |Texts(pairs)|;
    assert b[..|b|] == b;
    CutDecodes(pairs, |b|);
    AllComplete(pairs, |Texts(pairs)|);
  }

  /**
   In a longer string the 32-bit step can wrap: behind a key of 2^32 - 1 bytes the value is
   read from the start of the key itself.
   */
  lemma WrappedKey(data: seq<byte>, p: nat, valueSize: nat)
    requires p + TWO32 <= |data| && valueSize < TWO32
    ensures var keySize := TWO32 - 1;
      PairAt(data, p, keySize, valueSize)
      == Some((Pair(data[p..p + keySize], data[p..p + valueSize]), p + Step32(valueSize)))
  {
    assert Step32(TWO32 - 1) == 0;
  }
}
