/** Small definitions shared by every component. */
module Common {

  datatype Option<+T> = None | Some(value: T)

  /** One octet, as the C library sees it. */
  type byte = x: int | 0 <= x < 256 witness 0

  const TWO16: nat := 0x1_0000
  const TWO31: int := 0x8000_0000
  const TWO32: nat := 0x1_0000_0000

  /** The streaming chunk size of the host (src/main.cpp:70). */
  const BODY_CHUNK_SIZE: nat := 524288

  function Min(a: nat, b: nat): nat {
    if a < b then a else b
  }

  // ----- Slices -----

  lemma ConcatSlices<T>(x: seq<T>, y: seq<T>)
    ensures (x + y)[..|x|] == x && (x + y)[|x|..] == y && (x + y)[|x|..|x| + |y|] == y && (x + y)[0..|x|] == x
  {
  }

  /** A slice of a slice. */
  lemma SubSlice<T>(b: seq<T>, at: nat, s: seq<T>, i: nat, j: nat)
    requires at + |s| <= |b| && b[at..at + |s|] == s && i <= j <= |s|
    ensures b[at + i..at + j] == s[i..j]
  {
    forall k | 0 <= k < j - i
      ensures b[at + i..at + j][k] == s[i..j][k]
    {
      assert b[at..at + |s|][i + k] == b[at + i + k];
    }
  }

  /** b holds s from position `at`. */
  predicate Holds<T(==)>(b: seq<T>, at: nat, s: seq<T>) {
    at + |s| <= |b| && b[at..at + |s|] == s
  }

  lemma HoldsBoth<T>(b: seq<T>, at: nat, x: seq<T>, y: seq<T>)
    requires Holds(b, at, x + y)
    ensures Holds(b, at, x) && Holds(b, at + |x|, y)
  {
    ConcatSlices(x, y);
    SubSlice(b, at, x + y, 0, |x|);
    SubSlice(b, at, x + y, |x|, |x| + |y|);
  }

  function Repeat<T>(x: T, n: nat): (s: seq<T>)
    ensures |s| == n
  {
    seq(n, _ => x)
  }

  function Concat<T>(pieces: seq<seq<T>>): seq<T> {
    if pieces == [] then [] else Concat(pieces[..|pieces| - 1]) + pieces[|pieces| - 1]
  }

  /** memmove into an array. */
  method Copy<T>(dst: array<T>, at: nat, src: seq<T>)
    requires at + |src| <= dst.Length
    modifies dst
    ensures dst[..] == old(dst[..at]) + src + old(dst[at + |src|..])
    ensures dst[..at + |src|] == old(dst[..at]) + src && dst[at + |src|..] == old(dst[at + |src|..])
  {
    for i := 0 to |src|
      invariant dst[..at + i] == old(dst[..at]) + src[..i]
      invariant dst[at + i..] == old(dst[at + i..])
    {
      dst[at + i] := src[i];
    }
    assert src[..|src|] == src;
    assert dst[..] == dst[..at + |src|] + dst[at + |src|..];
  }
}
