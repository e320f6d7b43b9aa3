/** The whole request side: parseRequest, which converts in place, recovers what was sent. */
module LsapiRequestReceive {
  import opened Common
  import opened LsapiRequest
  import opened LsapiRequestParser
  import opened LsapiRequestCodec

  /** Every reference lies between the two positions. */
  predicate Between(list: seq<EnvRef>, from: nat, to: nat) {
    forall k :: 0 <= k < |list| ==> from <= list[k].key && After(list[k]) <= to
  }

  lemma {:induction false} EnvsBetween(b: seq<byte>, count: nat, pos: nat, end: nat)
    requires end + 8 <= |b| && pos <= end + 4
    ensures var r := Envs(b, count, pos, end);
      r.GoodEnv? ==> pos + 4 <= r.next && Between(r.list, pos, r.next - 4)
  {
    if count > 0 {
      EntryAdvances(b, pos, end);
      var e := EnvEntry(b, pos, end);
      if e.Some? {
        EnvsBetween(b, count - 1, After(e.value), end);
      }
    }
  }

  function TablesOf(p: Parsed): int {
    p.text - UNKNOWN_LEN * |p.unknown| - INDEX_LEN
  }

  /** The environment texts of a parsed packet lie between the fixed header and the tables. */
  lemma EnvsBeforeTables(b: seq<byte>, total: nat)
    requires HEADER_LEN <= total && total + SLACK <= |b| && NonNegative(b) && Parse(b, total).Some?
    ensures var p := Parse(b, total).value;
      && TablesOf(p) >= HEADER_LEN
      && Between(p.special, HEADER_LEN, TablesOf(p)) && Between(p.env, HEADER_LEN, TablesOf(p))
  {
    var big := IsBig(b);
    hide Int32, KnownTable, AllOk, Envs;
    EnvsBetween(b, Int32(b, CNT_SPECIAL_AT, big), HEADER_LEN, total);
    EnvsBounds(b, Int32(b, CNT_SPECIAL_AT, big), HEADER_LEN, total);
    var next := ParsedEnv(b, Int32(b, CNT_SPECIAL_AT, big), HEADER_LEN, total).next;
    EnvsBetween(b, Int32(b, CNT_ENV_AT, big), next, total);
  }

  lemma SameContents(b: seq<byte>, b': seq<byte>, list: seq<EnvRef>, to: nat)
    requires |b'| == |b| && RefsIn(b, list) && Between(list, HEADER_LEN, to)
    requires forall k :: HEADER_LEN <= k < |b| && k < to ==> b'[k] == b[k]
    ensures RefsIn(b', list) && Contents(b', list) == Contents(b, list)
  {
    forall k | 0 <= k < |list|
      ensures RefIn(b', list[k]) && Content(b', list[k]) == Content(b, list[k])
    {
      var e := list[k];
      assert b'[e.key..e.key + e.keyLen] == b[e.key..e.key + e.keyLen];
      assert b'[e.value..e.value + e.valLen] == b[e.value..e.value + e.valLen];
    }
  }

  lemma StillRecovered(b: seq<byte>, b': seq<byte>, p: Parsed, m: Message)
    requires |b'| == |b| && TextsUntouched(b, b', p) && Recovers(b, p, m) && TablesOf(p) >= HEADER_LEN
    requires Between(p.special, HEADER_LEN, TablesOf(p)) && Between(p.env, HEADER_LEN, TablesOf(p))
    ensures Recovers(b', p, m)
  {
    SameContents(b, b', p.special, TablesOf(p));
    SameContents(b, b', p.env, TablesOf(p));
    hide Contents, RefsIn, Between;
    assert b'[p.text..p.text + |m.text|] == b[p.text..p.text + |m.text|];
  }

  /** parseRequest on a well-formed packet of either byte order. */
  method Receive(buf: array<byte>, ghost m: Message, ghost big: bool, ghost slack: seq<byte>, total: nat)
    returns (p: Parsed)
    requires WellFormed(m) && total == Total(m) && |slack| >= SLACK && buf[..] == Encode(m, big) + slack
    modifies buf
    ensures Recovers(buf[..], p, m)
  {
    ghost var b := buf[..];
    RequestRoundTrip(m, big, slack);
    EnvsBeforeTables(b, total);
    hide Encode, WellFormed, Parse, Recovers, NonNegative, Between, TextsUntouched;
    var r := ParseRequest(buf, total);
    p := r.value;
    StillRecovered(b, buf[..], p, m);
  }
}
