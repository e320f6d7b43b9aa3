/** parseRequest and its in-place byte-order conversion, against LsapiRequest.Parse. */
module LsapiRequestParser {
  import opened Common
  import opened Endian
  import opened LsapiRequest

  // ----- Byte swapping -----

  /** Bytes are the same outside [from, to). */
  predicate SameOutside(b: seq<byte>, b': seq<byte>, from: nat, to: nat) {
    |b'| == |b| && forall k :: 0 <= k < |b| && !(from <= k < to) ==> b'[k] == b[k]
  }

  /** b' holds at `at` the four bytes of b in the opposite order. */
  predicate Swapped4(b: seq<byte>, b': seq<byte>, at: nat)
    requires |b'| == |b| && at + 4 <= |b|
  {
    b'[at] == b[at + 3] && b'[at + 1] == b[at + 2] && b'[at + 2] == b[at + 1] && b'[at + 3] == b[at]
  }

  predicate Swapped2(b: seq<byte>, b': seq<byte>, at: nat)
    requires |b'| == |b| && at + 2 <= |b|
  {
    b'[at] == b[at + 1] && b'[at + 1] == b[at]
  }

  lemma SwappedInt(b: seq<byte>, b': seq<byte>, at: nat)
    requires |b'| == |b| && at + 4 <= |b| && Swapped4(b, b', at)
    ensures Int32(b', at, false) == Int32(b, at, true)
  {
    assert b'[at..at + 4] == Reverse4(b[at..at + 4]);
  }

  lemma SwappedShort(b: seq<byte>, b': seq<byte>, at: nat)
    requires |b'| == |b| && at + 2 <= |b| && Swapped2(b, b', at)
    ensures UInt16(b', at, false) == UInt16(b, at, true)
  {
    assert b'[at..at + 2] == [b[at + 1], b[at]];
    assert b[at..at + 2] == [b[at], b[at + 1]];
  }

  lemma SameInt(b: seq<byte>, b': seq<byte>, at: nat, big: bool)
    requires |b'| == |b| && at + 4 <= |b| && forall k :: at <= k < at + 4 ==> b'[k] == b[k]
    ensures Int32(b', at, big) == Int32(b, at, big)
  {
    assert b'[at..at + 4] == b[at..at + 4];
  }

  lemma SameShort(b: seq<byte>, b': seq<byte>, at: nat, big: bool)
    requires |b'| == |b| && at + 2 <= |b| && forall k :: at <= k < at + 2 ==> b'[k] == b[k]
    ensures UInt16(b', at, big) == UInt16(b, at, big)
  {
    assert b'[at..at + 2] == b[at..at + 2];
  }

  lemma ZeroEitherWay(b: seq<byte>, at: nat)
    requires at + 4 <= |b|
    ensures Int32(b, at, false) == 0 <==> Int32(b, at, true) == 0
  {
    var w := b[at..at + 4];
    assert FromLe32(w) == 0 <==> w == [0, 0, 0, 0];
    assert FromLe32(Reverse4(w)) == 0 <==> w == [0, 0, 0, 0];
  }

  /** swapIntEndian. */
  method SwapInt(buf: array<byte>, at: nat)
    requires at + 4 <= buf.Length
    modifies buf
    ensures Swapped4(old(buf[..]), buf[..], at) && SameOutside(old(buf[..]), buf[..], at, at + 4)
  {
    var b := buf[at];
    buf[at] := buf[at + 3];
    buf[at + 3] := b;
    b := buf[at + 1];
    buf[at + 1] := buf[at + 2];
    buf[at + 2] := b;
  }

  method SwapShort(buf: array<byte>, at: nat)
    requires at + 2 <= buf.Length
    modifies buf
    ensures Swapped2(old(buf[..]), buf[..], at) && SameOutside(old(buf[..]), buf[..], at, at + 2)
  {
    var b := buf[at];
    buf[at] := buf[at + 1];
    buf[at + 1] := b;
  }

  /** A native 32-bit load. */
  method LoadInt(buf: array<byte>, at: nat) returns (x: int)
    requires at + 4 <= buf.Length
    ensures x == Int32(buf[..], at, false)
  {
    assert buf[..][at..at + 4] == [buf[at], buf[at + 1], buf[at + 2], buf[at + 3]];
    x := Signed32(FromLe32([buf[at], buf[at + 1], buf[at + 2], buf[at + 3]]));
  }

  method LoadShort(buf: array<byte>, at: nat) returns (x: nat)
    requires at + 2 <= buf.Length
    ensures x == UInt16(buf[..], at, false)
  {
    assert buf[..][at..at + 2] == [buf[at], buf[at + 1]];
    x := FromLe16([buf[at], buf[at + 1]]);
  }

  // ----- The packet header -----

  const FIELDS: nat := 9

  /** The first n 32-bit fields behind the packet header have been converted. */
  predicate FieldsFixed(b: seq<byte>, b': seq<byte>, n: nat)
    requires |b'| == |b| >= HEADER_LEN && n <= FIELDS
  {
    && SameOutside(b, b', 8, 8 + 4 * n)
    && forall i :: 0 <= i < n ==> Swapped4(b, b', 8 + 4 * i)
  }

  method FixField(buf: array<byte>, ghost b: seq<byte>, n: nat)
    requires buf.Length == |b| >= HEADER_LEN && n < FIELDS && FieldsFixed(b, buf[..], n)
    modifies buf
    ensures FieldsFixed(b, buf[..], n + 1)
  {
    SwapInt(buf, 8 + 4 * n);
  }

  /** fixEndian. */
  method FixEndian(buf: array<byte>)
    requires buf.Length >= HEADER_LEN
    modifies buf
    ensures FieldsFixed(old(buf[..]), buf[..], FIELDS)
  {
    ghost var b := buf[..];
    hide FieldsFixed;
    assert FieldsFixed(b, buf[..], 0) by { NothingFixed(b); }
    FixField(buf, b, 0);  // m_httpHeaderLen
    FixField(buf, b, 1);  // m_reqBodyLen
    FixField(buf, b, 2);  // m_scriptFileOff
    FixField(buf, b, 3);  // m_scriptNameOff
    FixField(buf, b, 4);  // m_queryStringOff
    FixField(buf, b, 5);  // m_requestMethodOff
    FixField(buf, b, 6);  // m_cntUnknownHeaders
    FixField(buf, b, 7);  // m_cntEnv
    FixField(buf, b, 8);  // m_cntSpecialEnv
  }

  lemma NothingFixed(b: seq<byte>)
    requires |b| >= HEADER_LEN
    ensures FieldsFixed(b, b, 0)
  {
  }

  /** Reading the converted header natively is reading the packet in its own order. */
  lemma FixedField(b: seq<byte>, b': seq<byte>, i: nat)
    requires |b'| == |b| >= HEADER_LEN && i < FIELDS
    requires if IsBig(b) then FieldsFixed(b, b', FIELDS) else b' == b
    ensures Int32(b', 8 + 4 * i, false) == Int32(b, 8 + 4 * i, IsBig(b))
  {
    if IsBig(b) {
      assert Swapped4(b, b', 8 + 4 * i);
      SwappedInt(b, b', 8 + 4 * i);
    }
  }

  lemma {:induction false} EnvsFrame(b: seq<byte>, b': seq<byte>, count: nat, pos: nat, end: nat)
    requires end + 8 <= |b| == |b'| && HEADER_LEN <= pos <= end + 4
    requires forall k :: HEADER_LEN <= k < |b| ==> b'[k] == b[k]
    ensures Envs(b', count, pos, end) == Envs(b, count, pos, end)
  {
    assert b'[pos..pos + 4] == b[pos..pos + 4];
    if count > 0 && pos + 4 <= end {
      assert b'[pos..pos + 2] == b[pos..pos + 2] && b'[pos + 2..pos + 4] == b[pos + 2..pos + 4];
      assert EnvEntry(b', pos, end) == EnvEntry(b, pos, end);
      if EnvEntry(b, pos, end).Some? {
        EntryAdvances(b, pos, end);
        hide EnvEntry;
        EnvsFrame(b, b', count - 1, After(EnvEntry(b, pos, end).value), end);
      }
    }
  }

  // ----- The header index -----

  /** Entry i of b' is entry i of b in the opposite order if its header is present, else untouched. */
  predicate KnownFixed(b: seq<byte>, b': seq<byte>, index: nat, i: nat)
    requires |b'| == |b| && index + INDEX_LEN <= |b| && i < KNOWN_HEADERS
  {
    if Int32(b, index + 52 + 4 * i, true) == 0 then forall k :: 0 <= k < |b| && InEntry(k, index, i) ==> b'[k] == b[k]
    else Swapped2(b, b', index + 2 * i) && Swapped4(b, b', index + 52 + 4 * i)
  }

  /** The four integers of entry i of b' are those of b in the opposite order. */
  predicate UnknownFixed(b: seq<byte>, b': seq<byte>, table: nat, i: nat)
    requires |b'| == |b| && table + UNKNOWN_LEN * (i + 1) <= |b|
  {
    var p := table + UNKNOWN_LEN * i;
    Swapped4(b, b', p) && Swapped4(b, b', p + 4) && Swapped4(b, b', p + 8) && Swapped4(b, b', p + 12)
  }

  lemma KnownFixedReads(b: seq<byte>, b': seq<byte>, index: nat, i: nat)
    requires |b'| == |b| && index + INDEX_LEN <= |b| && i < KNOWN_HEADERS && KnownFixed(b, b', index, i)
    ensures KnownAt(b', index, i, false) == KnownAt(b, index, i, true)
  {
    var at := index + 52 + 4 * i;
    ZeroEitherWay(b, at);
    hide Int32, UInt16;
    if Int32(b, at, true) == 0 {
      assert InEntry(at, index, i) && InEntry(at + 1, index, i);
      assert InEntry(at + 2, index, i) && InEntry(at + 3, index, i);
      SameInt(b, b', at, false);
    } else {
      SwappedInt(b, b', at);
      SwappedShort(b, b', index + 2 * i);
    }
  }

  lemma UnknownFixedReads(b: seq<byte>, b': seq<byte>, table: nat, i: nat)
    requires |b'| == |b| && table + UNKNOWN_LEN * (i + 1) <= |b| && UnknownFixed(b, b', table, i)
    ensures UnknownAt(b', table, i, false) == UnknownAt(b, table, i, true)
  {
    hide Int32;
    var p := table + UNKNOWN_LEN * i;
    SwappedInt(b, b', p);
    SwappedInt(b, b', p + 4);
    SwappedInt(b, b', p + 8);
    SwappedInt(b, b', p + 12);
  }

  /** Byte k belongs to entry n of the header index. */
  predicate InEntry(k: int, index: nat, n: nat) {
    index + 2 * n <= k < index + 2 * n + 2 || index + 52 + 4 * n <= k < index + 52 + 4 * n + 4
  }

  /** Only entries below n differ. */
  predicate IndexSame(b: seq<byte>, b': seq<byte>, index: nat, n: nat)
    requires |b'| == |b|
  {
    forall k :: 0 <= k < |b| && !(index <= k < index + 2 * n) && !(index + 52 <= k < index + 52 + 4 * n) ==>
      b'[k] == b[k]
  }

  /** The entries below n are converted, the others and all else untouched. */
  predicate IndexFixed(b: seq<byte>, b': seq<byte>, index: nat, n: nat)
    requires |b'| == |b| && index + INDEX_LEN <= |b| && n <= KNOWN_HEADERS
  {
    IndexSame(b, b', index, n) && forall i :: 0 <= i < n ==> KnownFixed(b, b', index, i)
  }

  /** b2 is b1 with entry n converted. */
  predicate EntrySwapped(b1: seq<byte>, b2: seq<byte>, index: nat, n: nat)
    requires |b2| == |b1| && index + INDEX_LEN <= |b1| && n < KNOWN_HEADERS
  {
    && Swapped2(b1, b2, index + 2 * n) && Swapped4(b1, b2, index + 52 + 4 * n)
    && (forall k :: 0 <= k < |b1| && !InEntry(k, index, n) ==> b2[k] == b1[k])
  }

  lemma OtherEntries(b: seq<byte>, b1: seq<byte>, b2: seq<byte>, index: nat, n: nat, i: nat)
    requires |b2| == |b1| == |b| && index + INDEX_LEN <= |b| && i < n < KNOWN_HEADERS
    requires KnownFixed(b, b1, index, i) && (b2 == b1 || EntrySwapped(b1, b2, index, n))
    ensures KnownFixed(b, b2, index, i)
  {
    hide Int32;
  }

  lemma ThisEntry(b: seq<byte>, b1: seq<byte>, b2: seq<byte>, index: nat, n: nat)
    requires |b2| == |b1| == |b| && index + INDEX_LEN <= |b| && n < KNOWN_HEADERS
    requires IndexSame(b, b1, index, n)
    requires if Int32(b1, index + 52 + 4 * n, false) == 0 then b2 == b1 else EntrySwapped(b1, b2, index, n)
    ensures KnownFixed(b, b2, index, n)
  {
    hide Int32;
    SameInt(b, b1, index + 52 + 4 * n, true);
    ZeroEitherWay(b1, index + 52 + 4 * n);
  }

  /** The body of the first loop of fixHeaderIndexEndian. */
  method FixIndexEntry(buf: array<byte>, index: nat, n: nat)
    requires index + INDEX_LEN <= buf.Length && n < KNOWN_HEADERS
    modifies buf
    ensures if Int32(old(buf[..]), index + 52 + 4 * n, false) == 0 then buf[..] == old(buf[..])
            else EntrySwapped(old(buf[..]), buf[..], index, n)
  {
    var off := LoadInt(buf, index + 52 + 4 * n);
    hide Int32;
    if off != 0 {
      SwapShort(buf, index + 2 * n);
      SwapInt(buf, index + 52 + 4 * n);
    }
  }

  lemma SameStep(b: seq<byte>, b1: seq<byte>, b2: seq<byte>, index: nat, n: nat)
    requires |b2| == |b1| == |b| && index + INDEX_LEN <= |b| && n < KNOWN_HEADERS
    requires IndexSame(b, b1, index, n) && (b2 == b1 || EntrySwapped(b1, b2, index, n))
    ensures IndexSame(b, b2, index, n + 1)
  {
  }

  lemma EntryStep(b: seq<byte>, b1: seq<byte>, b2: seq<byte>, index: nat, n: nat)
    requires |b2| == |b1| == |b| && index + INDEX_LEN <= |b| && n < KNOWN_HEADERS
    requires IndexFixed(b, b1, index, n)
    requires if Int32(b1, index + 52 + 4 * n, false) == 0 then b2 == b1 else EntrySwapped(b1, b2, index, n)
    ensures IndexFixed(b, b2, index, n + 1)
  {
    hide Int32, UInt16, KnownAt, KnownFixed, IndexSame, EntrySwapped;
    ThisEntry(b, b1, b2, index, n);
    SameStep(b, b1, b2, index, n);
    forall i | 0 <= i < n
      ensures KnownFixed(b, b2, index, i)
    {
      OtherEntries(b, b1, b2, index, n, i);
    }
  }

  /** The first loop of fixHeaderIndexEndian. */
  method FixIndex(buf: array<byte>, index: nat)
    requires index + INDEX_LEN <= buf.Length
    modifies buf
    ensures IndexFixed(old(buf[..]), buf[..], index, KNOWN_HEADERS)
  {
    ghost var b := buf[..];
    for i := 0 to KNOWN_HEADERS
      invariant IndexFixed(b, buf[..], index, i)
    {
      hide IndexFixed, EntrySwapped, Int32;
      ghost var b1 := buf[..];
      FixIndexEntry(buf, index, i);
      EntryStep(b, b1, buf[..], index, i);
    }
  }

  /** The first n entries of the unknown-header table are converted, all else untouched. */
  predicate TableFixed(b: seq<byte>, b': seq<byte>, table: nat, n: nat)
    requires |b'| == |b| && table + UNKNOWN_LEN * n <= |b|
  {
    && SameOutside(b, b', table, table + UNKNOWN_LEN * n)
    && forall i :: 0 <= i < n ==> UnknownFixed(b, b', table, i)
  }

  /** The body of the second loop. */
  method FixUnknown(buf: array<byte>, p: nat)
    requires p + UNKNOWN_LEN <= buf.Length
    modifies buf
    ensures SameOutside(old(buf[..]), buf[..], p, p + UNKNOWN_LEN)
    ensures Swapped4(old(buf[..]), buf[..], p) && Swapped4(old(buf[..]), buf[..], p + 4)
    ensures Swapped4(old(buf[..]), buf[..], p + 8) && Swapped4(old(buf[..]), buf[..], p + 12)
  {
    SwapInt(buf, p);       // nameOff
    SwapInt(buf, p + 4);   // nameLen
    SwapInt(buf, p + 8);   // valueOff
    SwapInt(buf, p + 12);  // valueLen
  }

  lemma UnknownStep(b: seq<byte>, b1: seq<byte>, b2: seq<byte>, table: nat, n: nat)
    requires |b2| == |b1| == |b| && table + UNKNOWN_LEN * (n + 1) <= |b| && TableFixed(b, b1, table, n)
    requires var p := table + UNKNOWN_LEN * n;
      && SameOutside(b1, b2, p, p + UNKNOWN_LEN)
      && Swapped4(b1, b2, p) && Swapped4(b1, b2, p + 4) && Swapped4(b1, b2, p + 8) && Swapped4(b1, b2, p + 12)
    ensures TableFixed(b, b2, table, n + 1)
  {
    assert UnknownFixed(b, b2, table, n);
    forall i | 0 <= i < n
      ensures UnknownFixed(b, b2, table, i)
    {
      assert UnknownFixed(b, b1, table, i);
    }
  }

  /** The second loop of fixHeaderIndexEndian. */
  method FixTable(buf: array<byte>, table: nat, count: nat)
    requires table + UNKNOWN_LEN * count <= buf.Length
    modifies buf
    ensures TableFixed(old(buf[..]), buf[..], table, count)
  {
    ghost var b := buf[..];
    for i := 0 to count
      invariant TableFixed(b, buf[..], table, i)
    {
      hide TableFixed;
      ghost var b1 := buf[..];
      FixUnknown(buf, table + UNKNOWN_LEN * i);
      UnknownStep(b, b1, buf[..], table, i);
    }
  }

  // ----- parseRequest -----

  /** validateHeaders. */
  method ValidateHeaders(buf: array<byte>, index: nat, table: nat, count: nat, textLen: int) returns (ok: bool)
    requires index + INDEX_LEN <= buf.Length && table + UNKNOWN_LEN * count <= buf.Length
    ensures ok == AllOk(KnownTable(buf[..], index, false), UnknownTable(buf[..], table, count, false), textLen)
  {
    hide Int32, UInt16;
    ghost var known := KnownTable(buf[..], index, false);
    ghost var unknown := UnknownTable(buf[..], table, count, false);
    for i := 0 to KNOWN_HEADERS
      invariant forall j :: 0 <= j < i ==> KnownOk(known[j], textLen)
    {
      var off := LoadInt(buf, index + 52 + 4 * i);
      var len := LoadShort(buf, index + 2 * i);
      assert known[i] == KnownAt(buf[..], index, i, false);
      if off != 0 && (off > textLen || len + off > textLen) {
        assert !KnownOk(known[i], textLen);
        return false;
      }
    }
    for i := 0 to count
      invariant forall j :: 0 <= j < i ==> UnknownOk(unknown[j], textLen)
    {
      var p := table + UNKNOWN_LEN * i;
      var nameOff := LoadInt(buf, p);
      var nameLen := LoadInt(buf, p + 4);
      var valueOff := LoadInt(buf, p + 8);
      var valueLen := LoadInt(buf, p + 12);
      assert unknown[i] == UnknownAt(buf[..], table, i, false);
      if nameOff > textLen || Add32(nameOff, nameLen) > textLen
         || valueOff > textLen || Add32(valueOff, valueLen) > textLen {
        assert !UnknownOk(unknown[i], textLen);
        return false;
      }
    }
    ok := true;
  }

  /** The packet header as the host reads it after fixEndian. */
  predicate HeaderFixed(b: seq<byte>, b': seq<byte>)
    requires |b| >= HEADER_LEN
  {
    && |b'| == |b| && (forall k :: HEADER_LEN <= k < |b| ==> b'[k] == b[k])
    && (forall i :: 0 <= i < FIELDS ==> Int32(b', 8 + 4 * i, false) == Int32(b, 8 + 4 * i, IsBig(b)))
  }

  method FixHeader(buf: array<byte>) returns (big: bool)
    requires buf.Length >= HEADER_LEN
    modifies buf
    ensures big == IsBig(old(buf[..])) && HeaderFixed(old(buf[..]), buf[..])
    ensures !big ==> buf[..] == old(buf[..])
  {
    hide Int32, FieldsFixed;
    ghost var b := buf[..];
    big := buf[FLAG_AT] % 2 != 0;
    if big {
      FixEndian(buf);
      FixedKeepsRest(b, buf[..]);
    }
    forall i | 0 <= i < FIELDS
      ensures Int32(buf[..], 8 + 4 * i, false) == Int32(b, 8 + 4 * i, IsBig(b))
    {
      FixedField(b, buf[..], i);
    }
  }

  lemma FixedKeepsRest(b: seq<byte>, b': seq<byte>)
    requires |b'| == |b| >= HEADER_LEN && FieldsFixed(b, b', FIELDS)
    ensures forall k :: HEADER_LEN <= k < |b| ==> b'[k] == b[k]
  {
  }

  /**
   The present entries of the header index and all unknown headers are converted; untouched are
   the absent entries, the entry of Transfer-Encoding, the padding, and all else.
   */
  predicate TablesFixed(b: seq<byte>, b': seq<byte>, index: nat, table: nat, count: nat)
    requires |b'| == |b| && index + INDEX_LEN == table && table + UNKNOWN_LEN * count <= |b|
  {
    && SameOutside(b, b', index, table + UNKNOWN_LEN * count)
    && (forall k :: index + 48 <= k < index + 52 ==> b'[k] == b[k])
    && (forall k :: index + 148 <= k < table ==> b'[k] == b[k])
    && (forall i :: 0 <= i < KNOWN_HEADERS ==> KnownFixed(b, b', index, i))
    && (forall i :: 0 <= i < count ==> UnknownFixed(b, b', table, i))
  }

  lemma BothTables(b1: seq<byte>, b2: seq<byte>, b3: seq<byte>, index: nat, table: nat, count: nat)
    requires |b3| == |b2| == |b1| && index + INDEX_LEN == table && table + UNKNOWN_LEN * count <= |b1|
    requires IndexFixed(b1, b2, index, KNOWN_HEADERS) && TableFixed(b2, b3, table, count)
    ensures TablesFixed(b1, b3, index, table, count)
  {
    hide Int32;
    forall i | 0 <= i < KNOWN_HEADERS
      ensures KnownFixed(b1, b3, index, i)
    {
      assert KnownFixed(b1, b2, index, i);
    }
    forall i | 0 <= i < count
      ensures UnknownFixed(b1, b3, table, i)
    {
      assert UnknownFixed(b2, b3, table, i);
    }
  }

  /** The host reads from converted tables what the packet says. */
  lemma TablesRead(b: seq<byte>, b': seq<byte>, index: nat, table: nat, count: nat)
    requires |b'| == |b| && index + INDEX_LEN == table && table + UNKNOWN_LEN * count <= |b|
    requires TablesFixed(b, b', index, table, count)
    ensures KnownTable(b', index, false) == KnownTable(b, index, true)
    ensures UnknownTable(b', table, count, false) == UnknownTable(b, table, count, true)
  {
    hide KnownAt, UnknownAt, KnownFixed, UnknownFixed, SameOutside;
    forall i | 0 <= i < KNOWN_HEADERS
      ensures KnownAt(b', index, i, false) == KnownAt(b, index, i, true)
    {
      KnownFixedReads(b, b', index, i);
    }
    forall i | 0 <= i < count
      ensures UnknownAt(b', table, i, false) == UnknownAt(b, table, i, true)
    {
      UnknownFixedReads(b, b', table, i);
    }
  }

  /** fixHeaderIndexEndian. */
  method FixHeaderIndexEndian(buf: array<byte>, index: nat, table: nat, count: nat)
    requires index + INDEX_LEN == table && table + UNKNOWN_LEN * count <= buf.Length
    modifies buf
    ensures TablesFixed(old(buf[..]), buf[..], index, table, count)
  {
    hide IndexFixed, TableFixed;
    ghost var b1 := buf[..];
    FixIndex(buf, index);
    ghost var b2 := buf[..];
    FixTable(buf, table, count);
    BothTables(b1, b2, buf[..], index, table, count);
  }

  lemma SameTables(b: seq<byte>, b': seq<byte>, index: nat, table: nat, count: nat, big: bool)
    requires |b'| == |b| && index + INDEX_LEN == table && table + UNKNOWN_LEN * count <= |b| && index >= HEADER_LEN
    requires forall k :: HEADER_LEN <= k < |b| ==> b'[k] == b[k]
    ensures KnownTable(b', index, big) == KnownTable(b, index, big)
    ensures UnknownTable(b', table, count, big) == UnknownTable(b, table, count, big)
  {
    hide Int32, UInt16;
    forall i | 0 <= i < KNOWN_HEADERS
      ensures KnownAt(b', index, i, big) == KnownAt(b, index, i, big)
    {
      SameInt(b, b', index + 52 + 4 * i, big);
      SameShort(b, b', index + 2 * i, big);
    }
    forall i | 0 <= i < count
      ensures UnknownAt(b', table, i, big) == UnknownAt(b, table, i, big)
    {
      var p := table + UNKNOWN_LEN * i;
      SameInt(b, b', p, big);
      SameInt(b, b', p + 4, big);
      SameInt(b, b', p + 8, big);
      SameInt(b, b', p + 12, big);
    }
  }

  /** The environment texts and the header text are as received. */
  predicate TextsUntouched(b: seq<byte>, b': seq<byte>, p: Parsed)
    requires |b'| == |b|
  {
    var tables := p.text - UNKNOWN_LEN * |p.unknown| - INDEX_LEN;
    forall k :: HEADER_LEN <= k < |b| && !(tables <= k < p.text) ==> b'[k] == b[k]
  }

  /** fixHeaderIndexEndian if needed, then validateHeaders. */
  method ConvertAndValidate(buf: array<byte>, big: bool, index: nat, table: nat, count: nat, textLen: int)
    returns (ok: bool)
    requires index + INDEX_LEN == table && table + UNKNOWN_LEN * count <= buf.Length
    modifies buf
    ensures ok == AllOk(KnownTable(old(buf[..]), index, big), UnknownTable(old(buf[..]), table, count, big), textLen)
    ensures SameOutside(old(buf[..]), buf[..], index, table + UNKNOWN_LEN * count)
    ensures KnownTable(buf[..], index, false) == KnownTable(old(buf[..]), index, big)
    ensures UnknownTable(buf[..], table, count, false) == UnknownTable(old(buf[..]), table, count, big)
  {
    hide AllOk, KnownTable, UnknownTable;
    if big {
      ghost var b := buf[..];
      FixHeaderIndexEndian(buf, index, table, count);
      TablesRead(b, buf[..], index, table, count);
    }
    ok := ValidateHeaders(buf, index, table, count, textLen);
  }

  /** A field of the fixed header, read natively. */
  method LoadField(buf: array<byte>, ghost b: seq<byte>, i: nat) returns (x: int)
    requires buf.Length == |b| >= HEADER_LEN && i < FIELDS && HeaderFixed(b, buf[..])
    ensures x == Int32(b, 8 + 4 * i, IsBig(b))
  {
    hide Int32;
    x := LoadInt(buf, 8 + 4 * i);
  }

  /** The part of parseRequest behind the offset checks. */
  method ParseTables(buf: array<byte>, ghost b: seq<byte>, total: nat, pos: nat, big: bool)
    returns (ok: bool, index: nat, table: nat, text: nat)
    requires HEADER_LEN <= total && total + SLACK <= buf.Length == |b| && NonNegative(b) && HEADER_LEN <= pos
    requires big == IsBig(b) && HeaderFixed(b, buf[..])
    modifies buf
    ensures var t := Tables(b, total, pos);
      ok == (t.Some? && var (i, t, x) := t.value;
                        AllOk(KnownTable(b, i, big), UnknownTable(b, t, Int32(b, CNT_UNKNOWN_AT, big), big),
                              Int32(b, HTTP_HEADER_LEN_AT, big)))
    ensures ok ==> Tables(b, total, pos) == Some((index, table, text))
    ensures ok ==> HEADER_LEN <= index && index + INDEX_LEN == table && text <= total
                   && text == table + UNKNOWN_LEN * Int32(b, CNT_UNKNOWN_AT, big)
    ensures ok ==> SameOutside(old(buf[..]), buf[..], index, text)
    ensures ok ==> KnownTable(buf[..], index, false) == KnownTable(b, index, big)
    ensures ok ==> UnknownTable(buf[..], table, Int32(b, CNT_UNKNOWN_AT, big), false)
                   == UnknownTable(b, table, Int32(b, CNT_UNKNOWN_AT, big), big)
  {
    hide Int32, AllOk, HeaderFixed, KnownTable, UnknownTable;
    var count := LoadField(buf, b, 6);
    var textLen := LoadField(buf, b, 0);
    index := (pos + 7) / 8 * 8;
    table := index + INDEX_LEN;
    text := table + UNKNOWN_LEN * count;
    if text + textLen != total {
      return false, index, table, text;
    }
    FixedTables(b, buf[..], index, table, count, big);
    ok := ConvertAndValidate(buf, big, index, table, count, textLen);
  }

  lemma FixedTables(b: seq<byte>, b': seq<byte>, index: nat, table: nat, count: nat, big: bool)
    requires |b| >= HEADER_LEN && HeaderFixed(b, b')
    requires index + INDEX_LEN == table && table + UNKNOWN_LEN * count <= |b| && index >= HEADER_LEN
    ensures KnownTable(b', index, big) == KnownTable(b, index, big)
    ensures UnknownTable(b', table, count, big) == UnknownTable(b, table, count, big)
  {
    SameTables(b, b', index, table, count, big);
  }

  lemma FixedRest(b: seq<byte>, b': seq<byte>)
    requires |b| >= HEADER_LEN && HeaderFixed(b, b')
    ensures |b'| == |b| && forall k :: HEADER_LEN <= k < |b| ==> b'[k] == b[k]
  {
  }

  /** allocateEnvList and parseEnv for the list whose count is header field i. */
  method LoadEnvs(buf: array<byte>, ghost b: seq<byte>, total: nat, i: nat, pos: nat) returns (r: EnvResult)
    requires HEADER_LEN <= total && total + SLACK <= buf.Length == |b| && HeaderFixed(b, buf[..])
    requires i < FIELDS && Int32(b, 8 + 4 * i, IsBig(b)) >= 0 && HEADER_LEN <= pos <= total + 4
    ensures r == ParsedEnv(b, Int32(b, 8 + 4 * i, IsBig(b)), pos, total)
    ensures r.GoodEnv? ==> pos < r.next && (pos <= total ==> r.next <= total + 4)
  {
    hide Int32;
    var count := LoadField(buf, b, i);
    if count > MAX_ENV {
      return BadEnv;
    }
    EnvsFrame(b, buf[..], count, pos, total);
    EnvsBounds(b, count, pos, total);
    r := ParseEnv(buf, count, pos, total);
  }

  /** parseRequest: the packet as received decides the result, whatever its byte order. */
  method ParseRequest(buf: array<byte>, total: nat) returns (r: Option<Parsed>)
    requires HEADER_LEN <= total && total + SLACK <= buf.Length && NonNegative(buf[..])
    modifies buf
    ensures r == Parse(old(buf[..]), total)
    ensures r.Some? ==> TextsUntouched(old(buf[..]), buf[..], r.value)
  {
    hide Int32, Envs, HeaderFixed, AllOk, Tables, KnownTable, UnknownTable;
    ghost var b := buf[..];
    var big := FixHeader(buf);
    FixedRest(b, buf[..]);
    ghost var b1 := buf[..];
    var special := LoadEnvs(buf, b, total, 8, HEADER_LEN);
    if special.BadEnv? {
      return None;
    }
    var env := LoadEnvs(buf, b, total, 7, special.next);
    if env.BadEnv? {
      return None;
    }
    var file := LoadField(buf, b, 2);
    var name := LoadField(buf, b, 3);
    var query := LoadField(buf, b, 4);
    var requestMethod := LoadField(buf, b, 5);
    if file < 0 || file >= total || name < 0 || name >= total
       || query < 0 || query >= total || requestMethod < 0 || requestMethod >= total {
      return None;
    }
    var bodyLen := LoadField(buf, b, 1);
    var textLen := LoadField(buf, b, 0);
    var count := LoadField(buf, b, 6);
    var ok, index, table, text := ParseTables(buf, b, total, env.next, big);
    if !ok {
      return None;
    }
    r := Some(Parsed(special.list, env.list, file, name, query, requestMethod,
                     KnownTable(buf[..], index, false), UnknownTable(buf[..], table, count, false),
                     text, textLen, bodyLen));
  }
}
