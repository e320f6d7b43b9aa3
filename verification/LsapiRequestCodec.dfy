/** The sender's side of BEGIN_REQUEST, and what parseRequest recovers from it. */
module LsapiRequestCodec {
  import opened Common
  import opened Endian
  import opened LsapiRequest

  datatype Env = Env(key: seq<byte>, value: seq<byte>)

  /** The content of a request packet. */
  datatype Message = Message(
    special: seq<Env>,
    env: seq<Env>,
    scriptFile: int, scriptName: int, queryString: int, requestMethod: int,
    known: seq<Known>,
    unknown: seq<Unknown>,
    text: seq<byte>,
    bodyLen: int)

  // ----- Environment lists -----

  predicate EnvFits(e: Env) {
    |e.key| + 1 < TWO16 && |e.value| + 1 < TWO16
  }

  predicate EnvsFit(envs: seq<Env>) {
    forall k :: 0 <= k < |envs| ==> EnvFits(envs[k])
  }

  function EncodeEnv(e: Env): (b: seq<byte>)
    requires EnvFits(e)
    ensures |b| == 6 + |e.key| + |e.value|
  {
    Be16(|e.key| + 1) + Be16(|e.value| + 1) + e.key + [0] + e.value + [0]
  }

  /** All entries, each with its lengths and terminators, and the four closing NULs. */
  function EncodeEnvs(envs: seq<Env>): (b: seq<byte>)
    requires EnvsFit(envs)
    ensures |b| >= 4
  {
    if envs == [] then [0, 0, 0, 0] else EncodeEnv(envs[0]) + EncodeEnvs(envs[1..])
  }

  predicate RefIn(b: seq<byte>, e: EnvRef) {
    e.value == e.key + e.keyLen + 1 && After(e) <= |b|
  }

  /** The key and value an entry of the parsed list points to. */
  function Content(b: seq<byte>, e: EnvRef): Env
    requires RefIn(b, e)
  {
    Env(b[e.key..e.key + e.keyLen], b[e.value..e.value + e.valLen])
  }

  predicate RefsIn(b: seq<byte>, list: seq<EnvRef>) {
    forall k :: 0 <= k < |list| ==> RefIn(b, list[k]) && list[k].keyLen + 1 < TWO16 && list[k].valLen + 1 < TWO16
  }

  function Contents(b: seq<byte>, list: seq<EnvRef>): (envs: seq<Env>)
    requires RefsIn(b, list)
    ensures |envs| == |list| && EnvsFit(envs)
  {
    seq(|list|, k requires 0 <= k < |list| => Content(b, list[k]))
  }

  lemma EncodedParts(e: Env)
    requires EnvFits(e)
    ensures var c := EncodeEnv(e); var k, v := |e.key|, |e.value|;
      && c[..2] == Be16(k + 1) && c[2..4] == Be16(v + 1)
      && c[4..4 + k] == e.key && c[5 + k..5 + k + v] == e.value
      && c[4 + k] == 0 && c[5 + k + v] == 0
  {
    hide Be16;
    var head := Be16(|e.key| + 1) + Be16(|e.value| + 1);
    assert head[2..4] == Be16(|e.value| + 1);
    var tail := e.key + [0] + e.value + [0];
    assert tail[..|e.key|] == e.key;
    assert tail[|e.key| + 1..|e.key| + 1 + |e.value|] == e.value;
    assert EncodeEnv(e) == head + tail;
    assert EncodeEnv(e)[2..4] == head[2..4];
    assert EncodeEnv(e)[4..] == tail;
    SubSlice(EncodeEnv(e), 4, tail, 0, |e.key|);
    SubSlice(EncodeEnv(e), 4, tail, |e.key| + 1, |e.key| + 1 + |e.value|);
  }

  lemma EntryRoundTrip(b: seq<byte>, e: Env, pos: nat, end: nat)
    requires EnvFits(e) && pos + |EncodeEnv(e)| <= end <= |b|
    requires b[pos..pos + |EncodeEnv(e)|] == EncodeEnv(e)
    ensures var r := EnvEntry(b, pos, end);
      && r.Some? && RefIn(b, r.value) && After(r.value) == pos + |EncodeEnv(e)|
      && r.value.keyLen == |e.key| && r.value.valLen == |e.value| && Content(b, r.value) == e
  {
    var c := EncodeEnv(e);
    var k, v := |e.key|, |e.value|;
    EncodedParts(e);
    Le16RoundTrip(k + 1);
    Le16RoundTrip(v + 1);
    SubSlice(b, pos, c, 0, 2);
    SubSlice(b, pos, c, 2, 4);
    SubSlice(b, pos, c, 4, 4 + k);
    SubSlice(b, pos, c, 5 + k, 5 + k + v);
    hide EncodeEnv, Be16, FromBe16;
  }

  lemma ContentsCons(b: seq<byte>, e: EnvRef, list: seq<EnvRef>)
    requires RefsIn(b, list) && RefIn(b, e) && e.keyLen + 1 < TWO16 && e.valLen + 1 < TWO16
    ensures RefsIn(b, [e] + list) && Contents(b, [e] + list) == [Content(b, e)] + Contents(b, list)
  {
  }

  /** parseEnv reads an encoded list back, and consumes exactly its encoding. */
  lemma {:induction false} EnvsRoundTrip(b: seq<byte>, envs: seq<Env>, pos: nat, end: nat)
    requires EnvsFit(envs) && pos + |EncodeEnvs(envs)| <= end && end + 8 <= |b|
    requires b[pos..pos + |EncodeEnvs(envs)|] == EncodeEnvs(envs)
    ensures var r := Envs(b, |envs|, pos, end);
      && r.GoodEnv? && r.next == pos + |EncodeEnvs(envs)|
      && RefsIn(b, r.list) && Contents(b, r.list) == envs
  {
    hide EncodeEnv, EnvEntry, Content, RefIn;
    if envs != [] {
      var first, rest := EncodeEnv(envs[0]), EncodeEnvs(envs[1..]);
      ConcatSlices(first, rest);
      SubSlice(b, pos, first + rest, 0, |first|);
      SubSlice(b, pos, first + rest, |first|, |first| + |rest|);
      EntryRoundTrip(b, envs[0], pos, end);
      EnvsRoundTrip(b, envs[1..], pos + |first|, end);
      var e := EnvEntry(b, pos, end).value;
      ContentsCons(b, e, Envs(b, |envs| - 1, pos + |first|, end).list);
      hide Contents;
      assert envs == [envs[0]] + envs[1..];
    }
  }

  /** Every key and value of the list is followed by a NUL. */
  predicate Terminated(b: seq<byte>, list: seq<EnvRef>)
    requires RefsIn(b, list)
  {
    forall k :: 0 <= k < |list| ==>
      b[list[k].key + list[k].keyLen] == 0 && b[list[k].value + list[k].valLen] == 0
  }

  /** The bytes of an accepted entry. */
  lemma EntrySlices(b: seq<byte>, pos: nat, k: nat, v: nat)
    requires pos + 6 + k + v <= |b|
    ensures var s := b[pos..pos + 6 + k + v];
      && s[..2] == b[pos..pos + 2] && s[2..4] == b[pos + 2..pos + 4]
      && s[4..4 + k] == b[pos + 4..pos + 4 + k] && s[5 + k..5 + k + v] == b[pos + 5 + k..pos + 5 + k + v]
      && s[4 + k] == b[pos + 4 + k] && s[5 + k + v] == b[pos + 5 + k + v]
  {
    var s := b[pos..pos + 6 + k + v];
    SubSlice(b, pos, s, 0, 2);
    SubSlice(b, pos, s, 2, 4);
    SubSlice(b, pos, s, 4, 4 + k);
    SubSlice(b, pos, s, 5 + k, 5 + k + v);
  }

  /** What an accepted entry says of its place and of its lengths. */
  lemma EntryFields(b: seq<byte>, pos: nat, end: nat)
    requires end <= |b| && EnvEntry(b, pos, end).Some?
    ensures var e := EnvEntry(b, pos, end).value;
      && e.key == pos + 4 && e.value == pos + 5 + e.keyLen && After(e) == pos + 6 + e.keyLen + e.valLen <= end
      && e.keyLen + 1 < TWO16 && e.valLen + 1 < TWO16
      && Be16(e.keyLen + 1) == b[pos..pos + 2] && Be16(e.valLen + 1) == b[pos + 2..pos + 4]
  {
    BeOf(b[pos..pos + 2]);
    BeOf(b[pos + 2..pos + 4]);
    hide Be16, FromBe16;
  }

  lemma EntryReencodes(b: seq<byte>, pos: nat, end: nat)
    requires end <= |b| && EnvEntry(b, pos, end).Some?
    ensures var e := EnvEntry(b, pos, end).value;
      && RefIn(b, e) && EnvFits(Content(b, e)) && |EncodeEnv(Content(b, e))| == After(e) - pos
      && (EncodeEnv(Content(b, e)) == b[pos..After(e)] <==>
            b[e.key + e.keyLen] == 0 && b[e.value + e.valLen] == 0)
  {
    hide EncodeEnv, EnvEntry, Be16, FromBe16;
    EntryFields(b, pos, end);
    var e := EnvEntry(b, pos, end).value;
    EncodedParts(Content(b, e));
    EntrySlices(b, pos, e.keyLen, e.valLen);
    SameSixParts(EncodeEnv(Content(b, e)), b[pos..After(e)], e.keyLen, e.valLen);
  }

  lemma SameSixParts(c: seq<byte>, s: seq<byte>, k: nat, v: nat)
    requires |c| == |s| == 6 + k + v && c[..2] == s[..2] && c[2..4] == s[2..4]
    requires c[4..4 + k] == s[4..4 + k] && c[5 + k..5 + k + v] == s[5 + k..5 + k + v]
    ensures c == s <==> c[4 + k] == s[4 + k] && c[5 + k + v] == s[5 + k + v]
  {
    SixParts(c, k, v);
    SixParts(s, k, v);
  }

  /** An encoded entry is determined by its six parts. */
  lemma SixParts(c: seq<byte>, k: nat, v: nat)
    requires |c| == 6 + k + v
    ensures c == c[..2] + c[2..4] + c[4..4 + k] + [c[4 + k]] + c[5 + k..5 + k + v] + [c[5 + k + v]]
  {
  }

  lemma BeOf(b: seq<byte>)
    requires |b| == 2
    ensures Be16(FromBe16(b)) == b
  {
  }

  /** Re-encoding the list gives back the bytes from pos exactly if its texts end in NULs. */
  predicate Reencodes(b: seq<byte>, pos: nat, r: EnvResult) {
    && r.GoodEnv? && RefsIn(b, r.list) && pos <= r.next <= |b|
    && |EncodeEnvs(Contents(b, r.list))| == r.next - pos
    && (EncodeEnvs(Contents(b, r.list)) == b[pos..r.next] <==> Terminated(b, r.list))
  }

  lemma {:induction false} ReencodesIff(b: seq<byte>, count: nat, pos: nat, end: nat)
    requires end + 8 <= |b| && pos <= end + 4 && Envs(b, count, pos, end).GoodEnv?
    ensures Reencodes(b, pos, Envs(b, count, pos, end))
  {
    hide EncodeEnv, EnvEntry, Content, RefIn, Contents, Terminated, EncodeEnvs, RefsIn, EnvFits, EnvsFit;
    if count == 0 {
      NothingToReencode(b);
      assert b[pos..pos + 4] == [0, 0, 0, 0];
    } else {
      hide Reencodes;
      var e := EnvEntry(b, pos, end).value;
      EntryAdvances(b, pos, end);
      ReencodesIff(b, count - 1, After(e), end);
      EntryReencodes(b, pos, end);
      ReencodeStep(b, pos, e, Envs(b, count - 1, After(e), end));
    }
  }

  lemma NothingToReencode(b: seq<byte>)
    ensures RefsIn(b, []) && Terminated(b, []) && EncodeEnvs(Contents(b, [])) == [0, 0, 0, 0]
  {
  }

  lemma ConcatEqual(x: seq<byte>, y: seq<byte>, p: seq<byte>, q: seq<byte>)
    requires |x| == |p| && |y| == |q|
    ensures x + y == p + q <==> x == p && y == q
  {
    ConcatSlices(x, y);
    ConcatSlices(p, q);
  }

  lemma TerminatedCons(b: seq<byte>, e: EnvRef, list: seq<EnvRef>)
    requires RefsIn(b, list) && RefIn(b, e) && RefsIn(b, [e] + list)
    ensures Terminated(b, [e] + list) <==>
            b[e.key + e.keyLen] == 0 && b[e.value + e.valLen] == 0 && Terminated(b, list)
  {
    var all := [e] + list;
    assert all[0] == e;
    if Terminated(b, all) {
      forall k | 0 <= k < |list|
        ensures b[list[k].key + list[k].keyLen] == 0 && b[list[k].value + list[k].valLen] == 0
      {
        assert all[k + 1] == list[k];
      }
    }
  }

  lemma ReencodeStep(b: seq<byte>, pos: nat, e: EnvRef, rest: EnvResult)
    requires RefIn(b, e) && EnvFits(Content(b, e)) && |EncodeEnv(Content(b, e))| == After(e) - pos
    requires EncodeEnv(Content(b, e)) == b[pos..After(e)] <==>
             b[e.key + e.keyLen] == 0 && b[e.value + e.valLen] == 0
    requires Reencodes(b, After(e), rest)
    ensures Reencodes(b, pos, Prepend([e], rest))
  {
    var list, next := rest.list, rest.next;
    var c := Content(b, e);
    assert |c.key| == e.keyLen && |c.value| == e.valLen;
    ContentsCons(b, e, list);
    TerminatedCons(b, e, list);
    var x, y := EncodeEnv(c), EncodeEnvs(Contents(b, list));
    EncodeCons(c, Contents(b, list));
    hide EncodeEnv, EncodeEnvs, Contents, Content, Terminated, RefIn, RefsIn;
    ConcatEqual(x, y, b[pos..After(e)], b[After(e)..next]);
    assert b[pos..next] == b[pos..After(e)] + b[After(e)..next];
  }

  lemma EncodeCons(e: Env, envs: seq<Env>)
    requires EnvFits(e) && EnvsFit(envs)
    ensures EnvsFit([e] + envs) && EncodeEnvs([e] + envs) == EncodeEnv(e) + EncodeEnvs(envs)
  {
    hide EncodeEnv;
    assert ([e] + envs)[1..] == envs;
  }

  /** The bytes need not be the encoding of anything: parseEnv does not look at the terminators. */
  lemma UnterminatedIsAccepted(b: seq<byte>)
    requires b == [0, 1, 0, 1, 65, 66, 0, 0, 0, 0, 0, 0, 0, 0]
    ensures var r := Envs(b, 1, 0, 6);
      r.GoodEnv? && RefsIn(b, r.list) && r.next == 10 && EncodeEnvs(Contents(b, r.list)) != b[..10]
  {
    hide EncodeEnvs, Contents, Content, EncodeEnv;
    assert b[0..2] == [b[0], b[1]] && b[2..4] == [b[2], b[3]] && b[6..10] == [b[6], b[7], b[8], b[9]];
    assert EnvEntry(b, 0, 6) == Some(EnvRef(4, 0, 5, 0));
    assert Envs(b, 0, 6, 6) == GoodEnv([], 10);
    assert Envs(b, 1, 0, 6) == GoodEnv([EnvRef(4, 0, 5, 0)], 10);
    ReencodesIff(b, 1, 0, 6);
    hide Envs, EnvEntry;
    var list := [EnvRef(4, 0, 5, 0)];
    assert b[list[0].key + list[0].keyLen] == 65;
    assert !Terminated(b, list);
    assert b[..10] == b[0..10];
  }

  // ----- Integers and tables -----

  function EncodeInt(x: int, big: bool): (b: seq<byte>)
    requires -TWO31 <= x < TWO31
    ensures |b| == 4
  {
    var w := Le32(Unsigned32(x));
    if big then Reverse4(w) else w
  }

  function EncodeShort(n: nat, big: bool): (b: seq<byte>)
    requires n < TWO16
    ensures |b| == 2
  {
    if big then Be16(n) else Le16(n)
  }

  predicate AllInts(xs: seq<int>) {
    forall i :: 0 <= i < |xs| ==> -TWO31 <= xs[i] < TWO31
  }

  function EncodeInts(xs: seq<int>, big: bool): (b: seq<byte>)
    requires AllInts(xs)
    ensures |b| == 4 * |xs|
  {
    if xs == [] then [] else EncodeInt(xs[0], big) + EncodeInts(xs[1..], big)
  }

  function EncodeShorts(xs: seq<nat>, big: bool): (b: seq<byte>)
    requires forall i :: 0 <= i < |xs| ==> xs[i] < TWO16
    ensures |b| == 2 * |xs|
  {
    if xs == [] then [] else EncodeShort(xs[0], big) + EncodeShorts(xs[1..], big)
  }

  lemma IntRead(b: seq<byte>, at: nat, x: int, big: bool)
    requires -TWO31 <= x < TWO31 && Holds(b, at, EncodeInt(x, big))
    ensures Int32(b, at, big) == x
  {
    var w := Le32(Unsigned32(x));
    Le32RoundTrip(Unsigned32(x));
    hide Le32, FromLe32;
    assert Reverse4(Reverse4(w)) == w;
  }

  lemma ShortRead(b: seq<byte>, at: nat, n: nat, big: bool)
    requires n < TWO16 && Holds(b, at, EncodeShort(n, big))
    ensures UInt16(b, at, big) == n
  {
    Le16RoundTrip(n);
  }

  lemma {:induction false} IntsRead(b: seq<byte>, at: nat, xs: seq<int>, big: bool, i: nat)
    requires AllInts(xs) && i < |xs| && Holds(b, at, EncodeInts(xs, big))
    ensures Int32(b, at + 4 * i, big) == xs[i]
    decreases |xs|
  {
    hide Holds, EncodeInt, Int32;
    HoldsBoth(b, at, EncodeInt(xs[0], big), EncodeInts(xs[1..], big));
    if i == 0 {
      IntRead(b, at, xs[0], big);
    } else {
      IntsRead(b, at + 4, xs[1..], big, i - 1);
    }
  }

  lemma {:induction false} ShortsRead(b: seq<byte>, at: nat, xs: seq<nat>, big: bool, i: nat)
    requires (forall k :: 0 <= k < |xs| ==> xs[k] < TWO16) && i < |xs| && Holds(b, at, EncodeShorts(xs, big))
    ensures UInt16(b, at + 2 * i, big) == xs[i]
    decreases |xs|
  {
    hide Holds, EncodeShort, UInt16;
    HoldsBoth(b, at, EncodeShort(xs[0], big), EncodeShorts(xs[1..], big));
    if i == 0 {
      ShortRead(b, at, xs[0], big);
    } else {
      ShortsRead(b, at + 2, xs[1..], big, i - 1);
    }
  }

  predicate KnownFits(k: Known, total: nat) {
    k.Present? ==> 0 < k.off && k.len < TWO16 && k.off + k.len <= total
  }

  predicate UnknownFits(u: Unknown, total: nat) {
    && 0 <= u.nameOff && 0 <= u.nameLen && u.nameOff + u.nameLen <= total
    && 0 <= u.valueOff && 0 <= u.valueLen && u.valueOff + u.valueLen <= total
  }

  predicate KnownsFit(known: seq<Known>, total: nat) {
    |known| == KNOWN_HEADERS + 1 && forall i :: 0 <= i < |known| ==> KnownFits(known[i], total)
  }

  predicate UnknownsFit(unknown: seq<Unknown>, total: nat) {
    forall i :: 0 <= i < |unknown| ==> UnknownFits(unknown[i], total)
  }

  function Lens(known: seq<Known>): (xs: seq<nat>)
    ensures |xs| == |known| && forall i :: 0 <= i < |xs| ==> xs[i] == if known[i].Present? then known[i].len else 0
  {
    seq(|known|, i requires 0 <= i < |known| => if known[i].Present? then known[i].len else 0)
  }

  function Offs(known: seq<Known>): (xs: seq<int>)
    ensures |xs| == |known| && forall i :: 0 <= i < |xs| ==> xs[i] == if known[i].Present? then known[i].off else 0
  {
    seq(|known|, i requires 0 <= i < |known| => if known[i].Present? then known[i].off else 0)
  }

  /** struct lsapi_http_header_index: 25 lengths, two bytes of padding, 25 offsets. */
  function EncodeIndex(known: seq<Known>, total: nat, big: bool): (b: seq<byte>)
    requires KnownsFit(known, total) && total < TWO31
    ensures |b| == INDEX_LEN
  {
    EncodeShorts(Lens(known), big) + [0, 0] + EncodeInts(Offs(known), big)
  }

  function EncodeUnknown(u: Unknown, total: nat, big: bool): (b: seq<byte>)
    requires UnknownFits(u, total) && total < TWO31
    ensures |b| == UNKNOWN_LEN
  {
    EncodeInts([u.nameOff, u.nameLen, u.valueOff, u.valueLen], big)
  }

  function EncodeUnknowns(unknown: seq<Unknown>, total: nat, big: bool): (b: seq<byte>)
    requires UnknownsFit(unknown, total) && total < TWO31
    ensures |b| == UNKNOWN_LEN * |unknown|
  {
    if unknown == [] then [] else EncodeUnknown(unknown[0], total, big) + EncodeUnknowns(unknown[1..], total, big)
  }

  lemma IndexRead(b: seq<byte>, at: nat, known: seq<Known>, total: nat, big: bool)
    requires KnownsFit(known, total) && total < TWO31 && Holds(b, at, EncodeIndex(known, total, big))
    ensures at + INDEX_LEN <= |b| && KnownTable(b, at, big) == known[..KNOWN_HEADERS]
  {
    var lens, offs := EncodeShorts(Lens(known), big), EncodeInts(Offs(known), big);
    assert at + INDEX_LEN <= |b|;
    HoldsBoth(b, at, lens + [0, 0], offs);
    HoldsBoth(b, at, lens, [0, 0]);
    hide EncodeShorts, EncodeInts, Int32, UInt16, Holds;
    forall i | 0 <= i < KNOWN_HEADERS
      ensures KnownAt(b, at, i, big) == known[i]
    {
      assert KnownFits(known[i], total);
      IntsRead(b, at + 52, Offs(known), big, i);
      ShortsRead(b, at, Lens(known), big, i);
    }
  }

  lemma UnknownRead(b: seq<byte>, at: nat, u: Unknown, total: nat, big: bool)
    requires UnknownFits(u, total) && total < TWO31 && Holds(b, at, EncodeUnknown(u, total, big))
    ensures at + UNKNOWN_LEN <= |b| && UnknownAt(b, at, 0, big) == u
  {
    var xs := [u.nameOff, u.nameLen, u.valueOff, u.valueLen];
    assert at + UNKNOWN_LEN <= |b|;
    hide EncodeInts, Int32, Holds;
    IntsRead(b, at, xs, big, 0);
    IntsRead(b, at, xs, big, 1);
    IntsRead(b, at, xs, big, 2);
    IntsRead(b, at, xs, big, 3);
  }

  lemma UnknownsParts(b: seq<byte>, at: nat, unknown: seq<Unknown>, total: nat, big: bool)
    requires UnknownsFit(unknown, total) && total < TWO31 && unknown != []
    requires Holds(b, at, EncodeUnknowns(unknown, total, big))
    ensures Holds(b, at, EncodeUnknown(unknown[0], total, big))
    ensures Holds(b, at + UNKNOWN_LEN, EncodeUnknowns(unknown[1..], total, big))
  {
    hide Holds, EncodeUnknown;
    HoldsBoth(b, at, EncodeUnknown(unknown[0], total, big), EncodeUnknowns(unknown[1..], total, big));
  }

  lemma {:induction false} UnknownsRead(b: seq<byte>, at: nat, unknown: seq<Unknown>, total: nat, big: bool)
    requires UnknownsFit(unknown, total) && total < TWO31 && Holds(b, at, EncodeUnknowns(unknown, total, big))
    ensures at + UNKNOWN_LEN * |unknown| <= |b| && UnknownTable(b, at, |unknown|, big) == unknown
    decreases |unknown|
  {
    if unknown == [] {
      assert EncodeUnknowns(unknown, total, big) == [];
    } else {
      hide Int32, Holds, EncodeUnknown, EncodeUnknowns, UnknownFits, UnknownTable, UnknownAt;
      var rest := unknown[1..];
      assert UnknownsFit(rest, total) && UnknownFits(unknown[0], total);
      hide UnknownsFit;
      UnknownsParts(b, at, unknown, total, big);
      UnknownRead(b, at, unknown[0], total, big);
      UnknownsRead(b, at + UNKNOWN_LEN, rest, total, big);
      assert at + UNKNOWN_LEN * |unknown| == at + UNKNOWN_LEN + UNKNOWN_LEN * |rest|;
      UnknownTableCons(b, at, |rest|, big);
      assert unknown == [unknown[0]] + rest;
    }
  }

  lemma UnknownTableCons(b: seq<byte>, at: nat, count: nat, big: bool)
    requires at + UNKNOWN_LEN * (count + 1) <= |b|
    ensures UnknownTable(b, at, count + 1, big)
            == [UnknownAt(b, at, 0, big)] + UnknownTable(b, at + UNKNOWN_LEN, count, big)
  {
    hide Int32;
    var t, t' := UnknownTable(b, at, count + 1, big), UnknownTable(b, at + UNKNOWN_LEN, count, big);
    forall i | 0 < i <= count
      ensures t[i] == t'[i - 1]
    {
      assert at + UNKNOWN_LEN * i == at + UNKNOWN_LEN + UNKNOWN_LEN * (i - 1);
    }
  }

  // ----- The packet -----

  /** Where the environment lists of the packet end. */
  function EnvEnd(m: Message): nat
    requires EnvsFit(m.special) && EnvsFit(m.env)
  {
    HEADER_LEN + |EncodeEnvs(m.special)| + |EncodeEnvs(m.env)|
  }

  function TextAt(m: Message): nat
    requires EnvsFit(m.special) && EnvsFit(m.env)
  {
    Aligned(EnvEnd(m)) + INDEX_LEN + UNKNOWN_LEN * |m.unknown|
  }

  function Total(m: Message): nat
    requires EnvsFit(m.special) && EnvsFit(m.env)
  {
    TextAt(m) + |m.text|
  }

  /** A packet the web server may send: everything in range, no offset negative. */
  predicate WellFormed(m: Message) {
    && EnvsFit(m.special) && EnvsFit(m.env) && |m.special| <= 8192 && |m.env| <= 8192
    && Total(m) < TWO31 && -TWO31 <= m.bodyLen < TWO31
    && 0 <= m.scriptFile < Total(m) && 0 <= m.scriptName < Total(m)
    && 0 <= m.queryString < Total(m) && 0 <= m.requestMethod < Total(m)
    && KnownsFit(m.known, |m.text|) && UnknownsFit(m.unknown, |m.text|)
  }

  /** The packet length and the nine fields of lsapi_req_header. */
  function Fields(m: Message): (xs: seq<int>)
    requires WellFormed(m)
    ensures AllInts(xs) && |xs| == 10
  {
    [Total(m), |m.text|, m.bodyLen, m.scriptFile, m.scriptName, m.queryString, m.requestMethod,
     |m.unknown|, |m.env|, |m.special|]
  }

  /** Version, packet type, byte order; then the integers. */
  function EncodeHeader(m: Message, big: bool): (b: seq<byte>)
    requires WellFormed(m)
    ensures |b| == HEADER_LEN
  {
    ['L' as byte, 'S' as byte, 1, if big then 1 else 0] + EncodeInts(Fields(m), big)
  }

  function EncodeTables(m: Message, big: bool): (b: seq<byte>)
    requires WellFormed(m)
    ensures |b| == Total(m) - Aligned(EnvEnd(m))
  {
    EncodeIndex(m.known, |m.text|, big) + (EncodeUnknowns(m.unknown, |m.text|, big) + m.text)
  }

  function Encode(m: Message, big: bool): (b: seq<byte>)
    requires WellFormed(m)
    ensures |b| == Total(m)
  {
    EncodeHeader(m, big) + (EncodeEnvs(m.special) + (EncodeEnvs(m.env)
      + (Repeat(0 as byte, Aligned(EnvEnd(m)) - EnvEnd(m)) + EncodeTables(m, big))))
  }

  /** Each part of the packet is where the layout says. */
  predicate LaidOut(b: seq<byte>, m: Message, big: bool)
    requires WellFormed(m)
  {
    var env := HEADER_LEN + |EncodeEnvs(m.special)|;
    var index := Aligned(EnvEnd(m));
    && Holds(b, 0, EncodeHeader(m, big)) && Holds(b, HEADER_LEN, EncodeEnvs(m.special))
    && Holds(b, env, EncodeEnvs(m.env)) && Holds(b, index, EncodeIndex(m.known, |m.text|, big))
    && Holds(b, index + INDEX_LEN, EncodeUnknowns(m.unknown, |m.text|, big)) && Holds(b, TextAt(m), m.text)
  }

  lemma TablesLaidOut(b: seq<byte>, m: Message, big: bool)
    requires WellFormed(m) && Holds(b, Aligned(EnvEnd(m)), EncodeTables(m, big))
    ensures var index := Aligned(EnvEnd(m));
      && Holds(b, index, EncodeIndex(m.known, |m.text|, big))
      && Holds(b, index + INDEX_LEN, EncodeUnknowns(m.unknown, |m.text|, big)) && Holds(b, TextAt(m), m.text)
  {
    hide Holds, EncodeEnvs, EncodeIndex, EncodeUnknowns;
    var index := Aligned(EnvEnd(m));
    var unknowns := EncodeUnknowns(m.unknown, |m.text|, big);
    HoldsBoth(b, index, EncodeIndex(m.known, |m.text|, big), unknowns + m.text);
    HoldsBoth(b, index + INDEX_LEN, unknowns, m.text);
  }

  lemma HoldsParts(b: seq<byte>, v: seq<byte>, w: seq<byte>, x: seq<byte>, y: seq<byte>, z: seq<byte>)
    requires Holds(b, 0, v + (w + (x + (y + z))))
    ensures Holds(b, 0, v) && Holds(b, |v|, w) && Holds(b, |v| + |w|, x)
    ensures Holds(b, |v| + |w| + |x| + |y|, z)
  {
    hide Holds;
    HoldsBoth(b, 0, v, w + (x + (y + z)));
    HoldsBoth(b, |v|, w, x + (y + z));
    HoldsBoth(b, |v| + |w|, x, y + z);
    HoldsBoth(b, |v| + |w| + |x|, y, z);
  }

  lemma EncodeLaysOut(m: Message, big: bool, slack: seq<byte>)
    requires WellFormed(m)
    ensures LaidOut(Encode(m, big) + slack, m, big)
  {
    var b := Encode(m, big) + slack;
    assert Holds(b, 0, Encode(m, big)) by {
      ConcatSlices(Encode(m, big), slack);
    }
    hide Holds, EncodeHeader, EncodeEnvs, EncodeIndex, EncodeUnknowns, Repeat, EncodeTables;
    HoldsParts(b, EncodeHeader(m, big), EncodeEnvs(m.special), EncodeEnvs(m.env),
               Repeat(0 as byte, Aligned(EnvEnd(m)) - EnvEnd(m)), EncodeTables(m, big));
    TablesLaidOut(b, m, big);
  }

  lemma HeaderRead(b: seq<byte>, m: Message, big: bool)
    requires WellFormed(m) && Holds(b, 0, EncodeHeader(m, big))
    ensures |b| >= HEADER_LEN && IsBig(b) == big
    ensures forall i :: 0 <= i < 10 ==> Int32(b, 4 + 4 * i, big) == Fields(m)[i]
  {
    var start := ['L' as byte, 'S' as byte, 1, if big then 1 else 0];
    assert b[FLAG_AT] == EncodeHeader(m, big)[FLAG_AT] by {
      SubSlice(b, 0, EncodeHeader(m, big), FLAG_AT, FLAG_AT + 1);
    }
    HoldsBoth(b, 0, start, EncodeInts(Fields(m), big));
    assert |b| >= HEADER_LEN;
    hide Holds, EncodeInts, Int32, Fields;
    forall i | 0 <= i < 10
      ensures Int32(b, 4 + 4 * i, big) == Fields(m)[i]
    {
      IntsRead(b, 4, Fields(m), big, i);
    }
  }

  /** What the parser makes of the packet is what was sent. */
  predicate Recovers(b: seq<byte>, p: Parsed, m: Message) {
    && RefsIn(b, p.special) && Contents(b, p.special) == m.special
    && RefsIn(b, p.env) && Contents(b, p.env) == m.env
    && p.scriptFile == m.scriptFile && p.scriptName == m.scriptName
    && p.queryString == m.queryString && p.requestMethod == m.requestMethod && p.bodyLen == m.bodyLen
    && |m.known| > KNOWN_HEADERS && p.known == m.known[..KNOWN_HEADERS] && p.unknown == m.unknown
    && p.textLen == |m.text| && Holds(b, p.text, m.text)
  }

  lemma HeaderFields(b: seq<byte>, m: Message, big: bool)
    requires WellFormed(m) && Holds(b, 0, EncodeHeader(m, big))
    ensures |b| >= HEADER_LEN && IsBig(b) == big && NonNegative(b)
    ensures && Int32(b, 4, big) == Total(m) && Int32(b, HTTP_HEADER_LEN_AT, big) == |m.text|
            && Int32(b, BODY_LEN_AT, big) == m.bodyLen && Int32(b, SCRIPT_FILE_AT, big) == m.scriptFile
            && Int32(b, SCRIPT_NAME_AT, big) == m.scriptName && Int32(b, QUERY_STRING_AT, big) == m.queryString
            && Int32(b, METHOD_AT, big) == m.requestMethod && Int32(b, CNT_UNKNOWN_AT, big) == |m.unknown|
            && Int32(b, CNT_ENV_AT, big) == |m.env| && Int32(b, CNT_SPECIAL_AT, big) == |m.special|
  {
    HeaderRead(b, m, big);
    hide Int32;
    var f := Fields(m);
    assert f[0] == Int32(b, 4, big) && f[1] == Int32(b, 8, big) && f[2] == Int32(b, 12, big)
           && f[3] == Int32(b, 16, big) && f[4] == Int32(b, 20, big) && f[5] == Int32(b, 24, big)
           && f[6] == Int32(b, 28, big) && f[7] == Int32(b, 32, big) && f[8] == Int32(b, 36, big)
           && f[9] == Int32(b, 40, big) by {
      hide Fields;
      assert Int32(b, 4 + 4 * 0, big) == f[0] && Int32(b, 4 + 4 * 1, big) == f[1]
             && Int32(b, 4 + 4 * 2, big) == f[2] && Int32(b, 4 + 4 * 3, big) == f[3]
             && Int32(b, 4 + 4 * 4, big) == f[4] && Int32(b, 4 + 4 * 5, big) == f[5]
             && Int32(b, 4 + 4 * 6, big) == f[6] && Int32(b, 4 + 4 * 7, big) == f[7]
             && Int32(b, 4 + 4 * 8, big) == f[8] && Int32(b, 4 + 4 * 9, big) == f[9];
    }
  }

  lemma FitsAreOk(known: seq<Known>, unknown: seq<Unknown>, total: nat)
    requires KnownsFit(known, total) && UnknownsFit(unknown, total) && total < TWO31
    ensures (forall u :: u in unknown ==> Ints(u)) && AllOk(known[..KNOWN_HEADERS], unknown, total)
  {
    forall i | 0 <= i < |unknown|
      ensures Ints(unknown[i]) && UnknownOk(unknown[i], total)
    {
      assert UnknownFits(unknown[i], total);
    }
    forall i | 0 <= i < KNOWN_HEADERS
      ensures KnownOk(known[i], total)
    {
      assert KnownFits(known[i], total);
    }
  }

  lemma HeldEnvs(b: seq<byte>, envs: seq<Env>, pos: nat, end: nat)
    requires EnvsFit(envs) && pos + |EncodeEnvs(envs)| <= end && end + 8 <= |b| && Holds(b, pos, EncodeEnvs(envs))
    ensures var r := Envs(b, |envs|, pos, end);
      && r.GoodEnv? && r.next == pos + |EncodeEnvs(envs)|
      && RefsIn(b, r.list) && Contents(b, r.list) == envs
  {
    hide EncodeEnvs, Envs, Contents, RefsIn;
    EnvsRoundTrip(b, envs, pos, end);
  }

  lemma ParsedPacket(b: seq<byte>, m: Message, big: bool)
    requires WellFormed(m) && LaidOut(b, m, big) && Total(m) + SLACK <= |b|
    ensures |b| >= HEADER_LEN && NonNegative(b) && Int32(b, 4, IsBig(b)) == Total(m)
    ensures Parse(b, Total(m)).Some? && Recovers(b, Parse(b, Total(m)).value, m)
  {
    hide Holds, EncodeEnvs, Envs, Contents, RefsIn, EncodeHeader, Int32, KnownTable, UnknownTable, AllOk,
      EncodeIndex, EncodeUnknowns, NonNegative, EnvFits, EnvsFit, UnknownsFit;
    HeaderFields(b, m, big);
    HeldEnvs(b, m.special, HEADER_LEN, Total(m));
    HeldEnvs(b, m.env, HEADER_LEN + |EncodeEnvs(m.special)|, Total(m));
    IndexRead(b, Aligned(EnvEnd(m)), m.known, |m.text|, big);
    UnknownsRead(b, Aligned(EnvEnd(m)) + INDEX_LEN, m.unknown, |m.text|, big);
    FitsAreOk(m.known, m.unknown, |m.text|);
  }

  // ----- The other way -----

  /** A sum of two 32-bit integers as a 32-bit integer. */
  function Wrapped(sum: int): int {
    if sum >= 0x8000_0000 then sum - 0x1_0000_0000 else if sum < -0x8000_0000 then sum + 0x1_0000_0000 else sum
  }

  /** The stretch that these two numbers announce is not behind the end, as far as 32 bits can tell. */
  predicate EndsWithin(off: int, len: int, end: int) {
    off <= end && Wrapped(off + len) <= end
  }

  /** Every header that is present ends within the header text. */
  predicate HeadersEnd(known: seq<Known>, unknown: seq<Unknown>, textLen: int) {
    && (forall i :: 0 <= i < |known| && known[i].Present? ==>
          known[i].off <= textLen && known[i].off + known[i].len <= textLen)
    && (forall i :: 0 <= i < |unknown| ==>
          && EndsWithin(unknown[i].nameOff, unknown[i].nameLen, textLen)
          && EndsWithin(unknown[i].valueOff, unknown[i].valueLen, textLen))
  }

  lemma SumWraps(x: int, y: int)
    requires -TWO31 <= x < TWO31 && -TWO31 <= y < TWO31
    ensures Add32(x, y) == Wrapped(x + y)
  {
  }

  lemma UnknownOkIff(u: Unknown, textLen: int)
    requires Ints(u)
    ensures UnknownOk(u, textLen) <==>
            EndsWithin(u.nameOff, u.nameLen, textLen) && EndsWithin(u.valueOff, u.valueLen, textLen)
  {
    SumWraps(u.nameOff, u.nameLen);
    SumWraps(u.valueOff, u.valueLen);
    hide Wrapped, Add32;
  }

  lemma AllOkIff(known: seq<Known>, unknown: seq<Unknown>, textLen: int)
    requires forall u :: u in unknown ==> Ints(u)
    ensures AllOk(known, unknown, textLen) <==> HeadersEnd(known, unknown, textLen)
  {
    hide EndsWithin, UnknownOk;
    forall i | 0 <= i < |unknown|
      ensures UnknownOk(unknown[i], textLen) <==>
              && EndsWithin(unknown[i].nameOff, unknown[i].nameLen, textLen)
              && EndsWithin(unknown[i].valueOff, unknown[i].valueLen, textLen)
    {
      UnknownOkIff(unknown[i], textLen);
    }
    if HeadersEnd(known, unknown, textLen) {
      forall i | 0 <= i < |known|
        ensures KnownOk(known[i], textLen)
      {
      }
    } else if AllOk(known, unknown, textLen) {
      forall i | 0 <= i < |known| && known[i].Present?
        ensures known[i].off <= textLen && known[i].off + known[i].len <= textLen
      {
        assert KnownOk(known[i], textLen);
      }
      assert false;
    }
  }

  /** The two environment lists, of at most 8192 entries, and the tables behind them are whole. */
  predicate WholeParts(b: seq<byte>, total: nat)
    requires HEADER_LEN <= total && total + SLACK <= |b| && NonNegative(b)
  {
    var big := IsBig(b);
    var special := Envs(b, Int32(b, CNT_SPECIAL_AT, big), HEADER_LEN, total);
    && Int32(b, CNT_SPECIAL_AT, big) <= 8192 && Int32(b, CNT_ENV_AT, big) <= 8192
    && special.GoodEnv? && special.next <= total + 4
    && var env := Envs(b, Int32(b, CNT_ENV_AT, big), special.next, total);
    && env.GoodEnv? && Tables(b, total, env.next).Some?
  }

  predicate InPacket(offset: int, total: nat) {
    0 <= offset < total
  }

  /**
   A packet is accepted exactly if its lists and tables are whole, the four offsets are in the
   packet, and every header ends within the header text.
   */
  lemma AcceptedIff(b: seq<byte>, total: nat)
    requires HEADER_LEN <= total && total + SLACK <= |b| && NonNegative(b)
    ensures Parse(b, total).Some? <==>
            && WholeParts(b, total)
            && var big := IsBig(b);
            && InPacket(Int32(b, SCRIPT_FILE_AT, big), total) && InPacket(Int32(b, SCRIPT_NAME_AT, big), total)
            && InPacket(Int32(b, QUERY_STRING_AT, big), total) && InPacket(Int32(b, METHOD_AT, big), total)
            && var special := Envs(b, Int32(b, CNT_SPECIAL_AT, big), HEADER_LEN, total);
               var env := Envs(b, Int32(b, CNT_ENV_AT, big), special.next, total);
               var (index, table, text) := Tables(b, total, env.next).value;
               HeadersEnd(KnownTable(b, index, big), UnknownTable(b, table, Int32(b, CNT_UNKNOWN_AT, big), big),
                          Int32(b, HTTP_HEADER_LEN_AT, big))
  {
    var big := IsBig(b);
    hide Int32, KnownTable, UnknownTable, Envs, HeadersEnd, AllOk;
    EnvsBounds(b, Int32(b, CNT_SPECIAL_AT, big), HEADER_LEN, total);
    if WholeParts(b, total) {
      var special := Envs(b, Int32(b, CNT_SPECIAL_AT, big), HEADER_LEN, total);
      var env := Envs(b, Int32(b, CNT_ENV_AT, big), special.next, total);
      var (index, table, text) := Tables(b, total, env.next).value;
      TableInts(b, table, Int32(b, CNT_UNKNOWN_AT, big), big);
      AllOkIff(KnownTable(b, index, big), UnknownTable(b, table, Int32(b, CNT_UNKNOWN_AT, big), big),
               Int32(b, HTTP_HEADER_LEN_AT, big));
    }
  }

  lemma TableInts(b: seq<byte>, table: nat, count: nat, big: bool)
    requires table + UNKNOWN_LEN * count <= |b|
    ensures forall u :: u in UnknownTable(b, table, count, big) ==> Ints(u)
  {
    hide Int32;
  }

  /** A packet in either byte order parses to what was sent. */
  lemma RequestRoundTrip(m: Message, big: bool, slack: seq<byte>)
    requires WellFormed(m) && |slack| >= SLACK
    ensures var b := Encode(m, big) + slack;
      && NonNegative(b) && Int32(b, 4, IsBig(b)) == Total(m)
      && Parse(b, Total(m)).Some? && Recovers(b, Parse(b, Total(m)).value, m)
  {
    EncodeLaysOut(m, big, slack);
    hide Encode, WellFormed, LaidOut, Recovers, Parse, NonNegative, Int32;
    ParsedPacket(Encode(m, big) + slack, m, big);
  }
}
