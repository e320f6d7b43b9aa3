/**
 Parsing a BEGIN_REQUEST packet (src/lsapilib.c:617-755 and 1192-1271), laid out as
 in src/lsapidef.h:120-163.  The host is little-endian; a packet of the other byte
 order is converted in place before it is read.
 */
module LsapiRequest {
  import opened Common
  import opened Endian

  const HEADER_LEN: nat := 44        // sizeof(struct lsapi_req_header)
  const INDEX_LEN: nat := 152        // sizeof(struct lsapi_http_header_index)
  const UNKNOWN_LEN: nat := 16       // sizeof(struct lsapi_header_offset)
  const KNOWN_HEADERS: nat := 24     // H_TRANSFER_ENCODING
  const MAX_ENV: nat := 8192
  const SLACK: nat := 1024           // allocated behind every packet

  // Offsets of the fields of lsapi_req_header.
  const FLAG_AT: nat := 3
  const HTTP_HEADER_LEN_AT: nat := 8
  const BODY_LEN_AT: nat := 12
  const SCRIPT_FILE_AT: nat := 16
  const SCRIPT_NAME_AT: nat := 20
  const QUERY_STRING_AT: nat := 24
  const METHOD_AT: nat := 28
  const CNT_UNKNOWN_AT: nat := 32
  const CNT_ENV_AT: nat := 36
  const CNT_SPECIAL_AT: nat := 40

  /** A 32-bit integer in either byte order. */
  function Int32(b: seq<byte>, at: nat, big: bool): (x: int)
    requires at + 4 <= |b|
    ensures -TWO31 <= x < TWO31
  {
    var w := b[at..at + 4];
    Signed32(FromLe32(if big then Reverse4(w) else w))
  }

  function UInt16(b: seq<byte>, at: nat, big: bool): (x: nat)
    requires at + 2 <= |b|
    ensures x < TWO16
  {
    var w := b[at..at + 2];
    if big then FromBe16(w) else FromLe16(w)
  }

  predicate IsBig(b: seq<byte>)
    requires |b| >= HEADER_LEN
  {
    b[FLAG_AT] % 2 == 1
  }

  // ----- Environment lists -----

  /** LSAPI_key_value_pair: where a key and a value lie in the buffer. */
  datatype EnvRef = EnvRef(key: nat, keyLen: nat, value: nat, valLen: nat)

  datatype EnvResult = BadEnv | GoodEnv(list: seq<EnvRef>, next: nat)

  /** One entry: two big-endian 16-bit lengths, each counting a terminator, and the two texts. */
  function EnvEntry(b: seq<byte>, pos: nat, end: nat): Option<EnvRef>
    requires end <= |b|
  {
    if pos + 4 > end then None
    else
      var keyLen, valLen := FromBe16(b[pos..pos + 2]), FromBe16(b[pos + 2..pos + 4]);
      if pos + 4 + keyLen + valLen > end || keyLen == 0 || valLen == 0 then None
      else Some(EnvRef(pos + 4, keyLen - 1, pos + 4 + keyLen, valLen - 1))
  }

  function After(e: EnvRef): nat {
    e.value + e.valLen + 1
  }

  /** `count` entries and the four NULs that close the list. */
  function Envs(b: seq<byte>, count: nat, pos: nat, end: nat): EnvResult
    requires end + 8 <= |b| && pos <= end + 4
  {
    if count == 0 then
      if b[pos..pos + 4] == [0, 0, 0, 0] then GoodEnv([], pos + 4) else BadEnv
    else match EnvEntry(b, pos, end)
      case None => BadEnv
      case Some(e) =>
        Prepend([e], Envs(b, count - 1, After(e), end))
  }

  function ParsedEnv(b: seq<byte>, count: nat, pos: nat, end: nat): (r: EnvResult)
    requires end + 8 <= |b| && pos <= end + 4
  {
    if count > MAX_ENV then BadEnv else Envs(b, count, pos, end)
  }

  lemma {:induction false} EnvsBounds(b: seq<byte>, count: nat, pos: nat, end: nat)
    requires end + 8 <= |b| && pos <= end + 4
    ensures var r := Envs(b, count, pos, end);
      r.GoodEnv? ==> pos < r.next <= (if count == 0 then pos else end) + 4 && |r.list| == count
  {
    if count > 0 {
      var e := EnvEntry(b, pos, end);
      if e.Some? {
        EnvsBounds(b, count - 1, After(e.value), end);
      }
    }
  }

  /** The body of the loop of parseEnv: one entry. */
  method ReadEntry(buf: array<byte>, pos: nat, end: nat) returns (r: Option<EnvRef>)
    requires end <= buf.Length
    ensures r == EnvEntry(buf[..], pos, end)
  {
    if pos + 4 > end {
      return None;
    }
    assert buf[..][pos..pos + 2] == [buf[pos], buf[pos + 1]];
    assert buf[..][pos + 2..pos + 4] == [buf[pos + 2], buf[pos + 3]];
    var keyLen := 256 * buf[pos] as int + buf[pos + 1] as int;
    var valLen := 256 * buf[pos + 2] as int + buf[pos + 3] as int;
    if pos + 4 + keyLen + valLen > end {
      return None;
    }
    if keyLen == 0 || valLen == 0 {
      return None;
    }
    r := Some(EnvRef(pos + 4, keyLen - 1, pos + 4 + keyLen, valLen - 1));
  }

  /** The four closing NULs. */
  method ReadTerminator(buf: array<byte>, pos: nat) returns (ok: bool)
    requires pos + 4 <= buf.Length
    ensures ok == (buf[..][pos..pos + 4] == [0, 0, 0, 0])
  {
    assert buf[..][pos..pos + 4] == [buf[pos], buf[pos + 1], buf[pos + 2], buf[pos + 3]];
    ok := buf[pos] == 0 && buf[pos + 1] == 0 && buf[pos + 2] == 0 && buf[pos + 3] == 0;
  }

  function Prepend(list: seq<EnvRef>, r: EnvResult): EnvResult {
    if r.BadEnv? then BadEnv else GoodEnv(list + r.list, r.next)
  }

  lemma PrependNothing(r: EnvResult)
    ensures Prepend([], r) == r
  {
  }

  lemma PrependBad(list: seq<EnvRef>)
    ensures Prepend(list, BadEnv) == BadEnv
  {
  }

  lemma PrependEnd(list: seq<EnvRef>, next: nat)
    ensures Prepend(list, GoodEnv([], next)) == GoodEnv(list, next)
  {
    assert list + [] == list;
  }

  lemma PrependStep(list: seq<EnvRef>, e: EnvRef, r: EnvResult)
    ensures Prepend(list, Prepend([e], r)) == Prepend(list + [e], r)
  {
    if r.GoodEnv? {
      assert list + ([e] + r.list) == list + [e] + r.list;
    }
  }

  lemma EntryAdvances(b: seq<byte>, pos: nat, end: nat)
    requires end <= |b|
    ensures EnvEntry(b, pos, end).Some? ==> pos < After(EnvEntry(b, pos, end).value) <= end
  {
  }

  /** parseEnv. */
  method ParseEnv(buf: array<byte>, count: nat, begin: nat, end: nat) returns (r: EnvResult)
    requires end + 8 <= buf.Length && begin <= end + 4
    ensures r == ParsedEnv(buf[..], count, begin, end)
  {
    if count > MAX_ENV {
      return BadEnv;
    }
    hide EnvEntry, Prepend;
    var list: seq<EnvRef> := [];
    var pos := begin;
    ghost var b := buf[..];
    PrependNothing(Envs(b, count, begin, end));
    while |list| < count
      invariant |list| <= count && 0 <= pos <= end + 4
      invariant Envs(b, count, begin, end) == Prepend(list, Envs(b, count - |list|, pos, end))
    {
      var entry := ReadEntry(buf, pos, end);
      if entry.None? {
        PrependBad(list);
        return BadEnv;
      }
      EntryAdvances(b, pos, end);
      PrependStep(list, entry.value, Envs(b, count - |list| - 1, After(entry.value), end));
      list := list + [entry.value];
      pos := After(entry.value);
    }
    var closed := ReadTerminator(buf, pos);
    if !closed {
      PrependBad(list);
      return BadEnv;
    }
    PrependEnd(list, pos + 4);
    r := GoodEnv(list, pos + 4);
  }

  // ----- The fixed-size parts -----

  /** A known header of the request: where its value lies, relative to the header text. */
  datatype Known = Absent | Present(off: int, len: nat)

  /** lsapi_header_offset. */
  datatype Unknown = Unknown(nameOff: int, nameLen: int, valueOff: int, valueLen: int)

  datatype Parsed = Parsed(
    special: seq<EnvRef>,
    env: seq<EnvRef>,
    scriptFile: int, scriptName: int, queryString: int, requestMethod: int,
    known: seq<Known>,      // entries below H_TRANSFER_ENCODING
    unknown: seq<Unknown>,
    text: nat,              // where the header text begins
    textLen: int,
    bodyLen: int)           // -2: to be taken from the Content-Length header

  function KnownAt(b: seq<byte>, index: nat, i: nat, big: bool): Known
    requires i < KNOWN_HEADERS && index + INDEX_LEN <= |b|
  {
    var off := Int32(b, index + 52 + 4 * i, big);
    if off == 0 then Absent else Present(off, UInt16(b, index + 2 * i, big))
  }

  function UnknownAt(b: seq<byte>, table: nat, i: nat, big: bool): Unknown
    requires table + UNKNOWN_LEN * (i + 1) <= |b|
  {
    var p := table + UNKNOWN_LEN * i;
    Unknown(Int32(b, p, big), Int32(b, p + 4, big), Int32(b, p + 8, big), Int32(b, p + 12, big))
  }

  /** 32-bit signed addition. */
  function Add32(x: int, y: int): int
    requires -TWO31 <= x < TWO31 && -TWO31 <= y < TWO31
  {
    Signed32((x + y) % TWO32)
  }

  predicate KnownOk(k: Known, total: int)
  {
    k.Present? ==> k.off <= total && k.len + k.off <= total
  }

  predicate Ints(u: Unknown) {
    && -TWO31 <= u.nameOff < TWO31 && -TWO31 <= u.nameLen < TWO31
    && -TWO31 <= u.valueOff < TWO31 && -TWO31 <= u.valueLen < TWO31
  }

  predicate UnknownOk(u: Unknown, total: int)
    requires Ints(u)
  {
    && u.nameOff <= total && Add32(u.nameOff, u.nameLen) <= total
    && u.valueOff <= total && Add32(u.valueOff, u.valueLen) <= total
  }

  function Aligned(pos: nat): (a: nat)
    ensures pos <= a < pos + 8 && a % 8 == 0
  {
    (pos + 7) / 8 * 8
  }

  /** The counts and lengths of the packet are not negative. */
  predicate NonNegative(b: seq<byte>)
    requires |b| >= HEADER_LEN
  {
    var big := IsBig(b);
    && Int32(b, HTTP_HEADER_LEN_AT, big) >= 0 && Int32(b, CNT_UNKNOWN_AT, big) >= 0
    && Int32(b, CNT_ENV_AT, big) >= 0 && Int32(b, CNT_SPECIAL_AT, big) >= 0
  }

  function OffsetOk(off: int, total: nat): bool {
    0 <= off < total
  }

  function KnownTable(b: seq<byte>, index: nat, big: bool): (k: seq<Known>)
    requires index + INDEX_LEN <= |b|
    ensures |k| == KNOWN_HEADERS
  {
    seq(KNOWN_HEADERS, i requires 0 <= i < KNOWN_HEADERS => KnownAt(b, index, i, big))
  }

  function UnknownTable(b: seq<byte>, table: nat, count: nat, big: bool): (u: seq<Unknown>)
    requires table + UNKNOWN_LEN * count <= |b|
    ensures |u| == count
  {
    seq(count, i requires 0 <= i < count => UnknownAt(b, table, i, big))
  }

  /** Every header that is present ends within the header text. */
  predicate AllOk(known: seq<Known>, unknown: seq<Unknown>, textLen: int)
    requires forall u :: u in unknown ==> Ints(u)
  {
    && (forall i :: 0 <= i < |known| ==> KnownOk(known[i], textLen))
    && (forall i :: 0 <= i < |unknown| ==> UnknownOk(unknown[i], textLen))
  }

  /** The tables and the header text behind the environment lists, which end at `pos`. */
  function Tables(b: seq<byte>, total: nat, pos: nat): Option<(nat, nat, nat)>
    requires |b| >= HEADER_LEN && NonNegative(b)
  {
    var big := IsBig(b);
    var index := Aligned(pos);
    var table := index + INDEX_LEN;
    var text := table + UNKNOWN_LEN * Int32(b, CNT_UNKNOWN_AT, big);
    if text + Int32(b, HTTP_HEADER_LEN_AT, big) != total then None else Some((index, table, text))
  }

  /** parseRequest as a function of the packet bytes as received. */
  function Parse(b: seq<byte>, total: nat): Option<Parsed>
    requires HEADER_LEN <= total && total + SLACK <= |b| && NonNegative(b)
  {
    var big := IsBig(b);
    match ParsedEnv(b, Int32(b, CNT_SPECIAL_AT, big), HEADER_LEN, total)
    case BadEnv => None
    case GoodEnv(special, next) =>
      EnvsBounds(b, Int32(b, CNT_SPECIAL_AT, big), HEADER_LEN, total);
      match ParsedEnv(b, Int32(b, CNT_ENV_AT, big), next, total)
      case BadEnv => None
      case GoodEnv(env, pos) =>
        var file, name := Int32(b, SCRIPT_FILE_AT, big), Int32(b, SCRIPT_NAME_AT, big);
        var query, requestMethod := Int32(b, QUERY_STRING_AT, big), Int32(b, METHOD_AT, big);
        if !OffsetOk(file, total) || !OffsetOk(name, total)
           || !OffsetOk(query, total) || !OffsetOk(requestMethod, total)
        then None
        else match Tables(b, total, pos)
          case None => None
          case Some((index, table, text)) =>
            var textLen := Int32(b, HTTP_HEADER_LEN_AT, big);
            var known := KnownTable(b, index, big);
            var unknown := UnknownTable(b, table, Int32(b, CNT_UNKNOWN_AT, big), big);
            if !AllOk(known, unknown, textLen) then None
            else Some(Parsed(special, env, file, name, query, requestMethod, known, unknown, text, textLen,
                             Int32(b, BODY_LEN_AT, big)))
  }
}
