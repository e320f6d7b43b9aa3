/**
 Header names: header_name_eq (src/http_utils.h:35-43), the CGI spelling LSAPI_ForeachHeader_r
 gives unknown headers (src/lsapilib.c:2386-2417) and its reversal by lsapi_header_cb
 (src/main.cpp:1040-1071).  Character classes are those of the C locale.
 */
module HeaderName {

  const NAME_MAX: nat := 250
  const PREFIX := "HTTP_"

  function Upper(c: char): char {
    if 'a' <= c <= 'z' then c - 'a' + 'A' else c
  }

  function Lower(c: char): char {
    if 'A' <= c <= 'Z' then c - 'A' + 'a' else c
  }

  predicate NameEq(a: string, b: string) {
    |a| == |b| && forall i :: 0 <= i < |a| ==> Lower(a[i]) == Lower(b[i])
  }

  /** header_name_eq. */
  method HeaderNameEq(a: string, b: string) returns (r: bool)
    ensures r == NameEq(a, b)
  {
    if |a| != |b| {
      return false;
    }
    for i := 0 to |a|
      invariant forall j :: 0 <= j < i ==> Lower(a[j]) == Lower(b[j])
    {
      if Lower(a[i]) != Lower(b[i]) {
        return false;
      }
    }
    r := true;
  }

  /** The spelling of a header name in the CGI environment. */
  function Cgi(name: string): (key: string)
    ensures |key| == |name|
  {
    seq(|name|, i requires 0 <= i < |name| => if name[i] == '-' then '_' else Upper(name[i]))
  }

  /** The key of an unknown header, of whose name no more than NAME_MAX bytes are used. */
  function CgiKey(name: string): string {
    PREFIX + Cgi(name[..if |name| > NAME_MAX then NAME_MAX else |name|])
  }

  /** The name conversion of LSAPI_ForeachHeader_r, in its 256-byte array. */
  method CgiName(name: string) returns (key: string)
    ensures key == CgiKey(name)
  {
    var keyLen := if |name| > NAME_MAX then NAME_MAX else |name|;
    var out := new char[256];
    forall i | 0 <= i < 5 {
      out[i] := PREFIX[i];
    }
    var p := 0;
    while p < keyLen
      invariant 0 <= p <= keyLen && out[..5] == PREFIX
      invariant out[5..5 + p] == Cgi(name[..keyLen])[..p]
    {
      var ch := name[p];
      ghost var before := out[5..5 + p];
      if ch == '-' {
        out[5 + p] := '_';
      } else {
        out[5 + p] := Upper(ch);
      }
      assert out[5..5 + (p + 1)] == before + [Cgi(name[..keyLen])[p]];
      p := p + 1;
    }
    out[5 + p] := 0 as char;
    key := out[..5 + keyLen];
    assert key == out[..5] + out[5..5 + keyLen];
  }

  /** Underscores become hyphens. */
  function Hyphened(c: char): char {
    if c == '_' then '-' else c
  }

  /** The case of character i: upper behind a hyphen and at the start, lower elsewhere. */
  function TitleAt(s: string, i: nat): char
    requires i < |s|
  {
    if s[i] == '-' then '-' else if i == 0 || s[i - 1] == '-' then Upper(s[i]) else Lower(s[i])
  }

  function Hyphens(s: string): (t: string)
    ensures |t| == |s| && forall i :: 0 <= i < |s| ==> t[i] == Hyphened(s[i])
  {
    seq(|s|, i requires 0 <= i < |s| => Hyphened(s[i]))
  }

  function Titled(s: string): (t: string)
    ensures |t| == |s| && forall i :: 0 <= i < |s| ==> t[i] == TitleAt(s, i)
  {
    seq(|s|, i requires 0 <= i < |s| => TitleAt(s, i))
  }

  method ReplaceUnderscores(name: array<char>)
    modifies name
    ensures name[..] == Hyphens(old(name[..]))
  {
    for i := 0 to name.Length
      invariant forall j :: 0 <= j < i ==> name[j] == Hyphened(old(name[j]))
      invariant forall j :: i <= j < name.Length ==> name[j] == old(name[j])
    {
      if name[i] == '_' {
        name[i] := '-';
      }
    }
  }

  method TitleCase(name: array<char>)
    modifies name
    ensures name[..] == Titled(old(name[..]))
  {
    var nextUpper := true;
    for i := 0 to name.Length
      invariant forall j :: 0 <= j < i ==> name[j] == TitleAt(old(name[..]), j)
      invariant forall j :: i <= j < name.Length ==> name[j] == old(name[j])
      invariant nextUpper == (i == 0 || old(name[..])[i - 1] == '-')
    {
      if name[i] == '-' {
        nextUpper := true;
      } else if nextUpper {
        name[i] := Upper(name[i]);
        nextUpper := false;
      } else {
        name[i] := Lower(name[i]);
      }
    }
  }

  function Stripped(key: string): string {
    if |key| > 5 && key[..5] == PREFIX then key[5..] else key
  }

  /** The name lsapi_header_cb makes of a CGI key. */
  function HttpName(key: string): string {
    Titled(Hyphens(Stripped(key)))
  }

  /** lsapi_header_cb. */
  method HeaderCallback(key: string) returns (name: string)
    ensures name == HttpName(key)
  {
    var s := key;
    if |s| > 5 && s[..5] == PREFIX {
      s := s[5..];
    }
    var a := new char[|s|](i requires 0 <= i < |s| => s[i]);
    assert a[..] == s;
    ReplaceUnderscores(a);
    TitleCase(a);
    name := a[..];
  }

  /** Letters are upper-case at the start and behind hyphens, lower-case elsewhere. */
  predicate TitleCased(s: string) {
    forall i :: 0 <= i < |s| ==> CasedAt(s, i)
  }

  predicate CasedAt(s: string, i: nat)
    requires i < |s|
  {
    if i == 0 || s[i - 1] == '-' then !('a' <= s[i] <= 'z') else !('A' <= s[i] <= 'Z')
  }

  lemma TitledOnce(s: string, t: string, i: nat)
    requires |s| == |t| && i < |t| && Lower(s[i]) == Lower(t[i]) && (i > 0 ==> Lower(s[i - 1]) == Lower(t[i - 1]))
    requires CasedAt(s, i)
    ensures s[i] == TitleAt(t, i)
  {
  }

  /** The name made of a key is the one title-cased spelling of what the key stands for. */
  lemma NameIsTitleCased(key: string)
    ensures TitleCased(HttpName(key)) && NameEq(HttpName(key), Hyphens(Stripped(key)))
    ensures forall s :: TitleCased(s) && NameEq(s, Hyphens(Stripped(key))) ==> s == HttpName(key)
  {
    var t := Hyphens(Stripped(key));
    TitledIs(t);
    hide Hyphens, Stripped, TitleAt, CasedAt;
    forall s | TitleCased(s) && NameEq(s, t)
      ensures s == Titled(t)
    {
      hide Lower;
      forall i | 0 <= i < |t|
        ensures s[i] == Titled(t)[i]
      {
        TitledOnce(s, t, i);
      }
    }
  }

  lemma TitledIs(t: string)
    ensures TitleCased(Titled(t)) && NameEq(Titled(t), t)
  {
  }

  /** A key is the prefix, and then the name with underscores for hyphens and no lower-case letters. */
  lemma KeyIsUpperCase(name: string)
    ensures var key := CgiKey(name);
      && |key| == 5 + (if |name| > 250 then 250 else |name|) && key[..5] == "HTTP_"
      && forall i :: 5 <= i < |key| ==>
        && !('a' <= key[i] <= 'z')
        && if name[i - 5] == '-' then key[i] == '_' else Lower(key[i]) == Lower(name[i - 5])
  {
  }

  /** The name comes back exactly if it is short enough and has no underscore. */
  lemma RoundTripIff(name: string)
    ensures NameEq(HttpName(CgiKey(name)), name) <==> 1 <= |name| <= NAME_MAX && '_' !in name
  {
  }

  /** An unknown header name on its way through both conversions. */
  method RoundTrip(name: string) returns (same: bool)
    ensures same <==> 1 <= |name| <= NAME_MAX && '_' !in name
  {
    var key := CgiName(name);
    var back := HeaderCallback(key);
    RoundTripIff(name);
    same := HeaderNameEq(back, name);
  }
}
