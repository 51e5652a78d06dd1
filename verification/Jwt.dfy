/**
 Base64URL (section 5 of RFC 4648, without padding) and the assembly and splitting of
 signed tokens (section 2 of RFC 7515). Shifts and masks are written as division and
 remainder; HMAC is a function parameter.
 */
module Jwt {
  import opened Base

  type Byte = x: int | 0 <= x < 256
  type Bytes = seq<Byte>

  datatype Result<T> = Ok(value: T) | Err(message: string)

  // ---------------------------------------------------------------- the alphabet

  function StdChar(v: nat): char
    requires v < 64
  {
    if v < 26 then 'A' + v as char
    else if v < 52 then 'a' + (v - 26) as char
    else if v < 62 then '0' + (v - 52) as char
    else if v == 62 then '+' else '/'
  }

  function ToUrl(c: char): char {
    if c == '+' then '-' else if c == '/' then '_' else c
  }

  function FromUrl(c: char): char {
    if c == '-' then '+' else if c == '_' then '/' else c
  }

  /** The decoding table: -1 outside the alphabet. */
  function StdValue(c: char): int {
    if 'A' <= c <= 'Z' then c as int - 'A' as int
    else if 'a' <= c <= 'z' then c as int - 'a' as int + 26
    else if '0' <= c <= '9' then c as int - '0' as int + 52
    else if c == '+' then 62
    else if c == '/' then 63
    else -1
  }

  lemma CharRoundTrip(v: nat)
    requires v < 64
    ensures StdValue(FromUrl(ToUrl(StdChar(v)))) == v && IsUrlChar(ToUrl(StdChar(v)))
  {
  }

  /** What may occur in an encoding: no dot, no padding, neither of the two characters that URLs reserve. */
  predicate IsUrlChar(c: char) {
    'A' <= c <= 'Z' || 'a' <= c <= 'z' || '0' <= c <= '9' || c == '-' || c == '_'
  }

  // ---------------------------------------------------------------- encoding

  function UrlChar(v: nat): char
    requires v < 64
  {
    ToUrl(StdChar(v))
  }

  /** The characters for up to three bytes. */
  function First(d: Bytes): string
    requires d != []
  {
    if |d| == 1 then [UrlChar(d[0] / 4), UrlChar(d[0] % 4 * 16)]
    else if |d| == 2 then [UrlChar(d[0] / 4), UrlChar(d[0] % 4 * 16 + d[1] / 16), UrlChar(d[1] % 16 * 4)]
    else [UrlChar(d[0] / 4), UrlChar(d[0] % 4 * 16 + d[1] / 16), UrlChar(d[1] % 16 * 4 + d[2] / 64), UrlChar(d[2] % 64)]
  }

  function Rest(d: Bytes): Bytes {
    if |d| <= 3 then [] else d[3..]
  }

  /** The encoding, three bytes at a time. */
  function Encode(d: Bytes): string
    decreases |d|
  {
    if d == [] then "" else First(d) + Encode(Rest(d))
  }

  /** Four characters of the standard alphabet for the bytes at `i`, with padding at the end of the data. */
  function Quad(d: Bytes, i: nat): string
    requires i < |d|
  {
    var a := d[i];
    var b := if i + 1 < |d| then d[i + 1] else 0;
    var c := if i + 2 < |d| then d[i + 2] else 0;
    [StdChar(a / 4), StdChar(a % 4 * 16 + b / 16)]
    + [if i + 1 < |d| then StdChar(b % 16 * 4 + c / 64) else '=']
    + [if i + 2 < |d| then StdChar(c % 64) else '=']
  }

  function Padded(d: Bytes): string
    decreases |d|
  {
    if d == [] then "" else Quad(d, 0) + Padded(Rest(d))
  }

  function MapUrl(s: string): string {
    if s == "" then "" else [ToUrl(s[0])] + MapUrl(s[1..])
  }

  /** The padding that the encoding omits. */
  function Padding(d: Bytes): string {
    if |d| % 3 == 1 then "==" else if |d| % 3 == 2 then "=" else ""
  }

  lemma {:induction false} MapUrlJoin(a: string, b: string)
    ensures MapUrl(a + b) == MapUrl(a) + MapUrl(b)
  {
    if a == "" {
      assert a + b == b;
    } else {
      assert (a + b)[1..] == a[1..] + b;
      MapUrlJoin(a[1..], b);
    }
  }

  lemma MapUrlFour(s: string)
    requires |s| == 4
    ensures MapUrl(s) == [ToUrl(s[0]), ToUrl(s[1]), ToUrl(s[2]), ToUrl(s[3])]
  {
    assert s[1..][1..] == s[2..] && s[2..][1..] == s[3..] && s[3..][1..] == "";
    assert MapUrl(s[3..]) == [ToUrl(s[3])];
    assert MapUrl(s[2..]) == [ToUrl(s[2]), ToUrl(s[3])];
    assert MapUrl(s[1..]) == [ToUrl(s[1]), ToUrl(s[2]), ToUrl(s[3])];
  }

  lemma QuadIs(d: Bytes)
    requires d != []
    ensures MapUrl(Quad(d, 0)) == First(d) + if |d| <= 3 then Padding(d) else ""
  {
    hide StdChar;
    MapUrlFour(Quad(d, 0));
  }

  lemma PaddingRest(d: Bytes)
    requires d != []
    ensures |d| > 3 ==> Padding(Rest(d)) == Padding(d)
    ensures |d| <= 3 ==> Padding(Rest(d)) == "" && Encode(Rest(d)) == ""
  {
  }

  lemma {:induction false} PaddedIs(d: Bytes)
    ensures MapUrl(Padded(d)) == Encode(d) + Padding(d)
    decreases |d|
  {
    hide Quad, First, Padding;
    if d == [] {
      assert Padding(d) == "" by {
        NoPadding();
      }
    } else {
      MapUrlJoin(Quad(d, 0), Padded(Rest(d)));
      QuadIs(d);
      PaddedIs(Rest(d));
      PaddingRest(d);
      JoinThree(First(d), Encode(Rest(d)), Padding(Rest(d)));
      if |d| <= 3 {
        JoinNone(First(d), Padding(d));
      } else {
        JoinNone(First(d), "");
      }
    }
  }

  lemma JoinThree(a: string, b: string, c: string)
    ensures a + (b + c) == (a + b) + c
  {
  }

  lemma JoinNone(a: string, b: string)
    ensures a + "" == a && b + "" == b && (a + b) + ("" + "") == (a + "") + b
  {
  }

  lemma NoPadding()
    ensures Padding([]) == ""
  {
  }

  lemma {:induction false} EncodeAlphabet(d: Bytes, i: nat)
    requires i < |Encode(d)|
    ensures var c := Encode(d)[i]; IsUrlChar(c) && c != '.' && c != '+' && c != '/' && c != '='
    decreases |d|
  {
    hide StdChar, ToUrl;
    forall v: nat | v < 64 ensures IsUrlChar(UrlChar(v)) {
      CharRoundTrip(v);
    }
    if i >= |First(d)| {
      EncodeAlphabet(Rest(d), i - |First(d)|);
    }
  }

  lemma QuadsUnfold(d: Bytes, i: nat)
    requires i < |d|
    ensures Padded(d[i..]) == Quad(d, i) + Padded(if i + 3 <= |d| then d[i + 3..] else [])
  {
    hide StdChar;
    var e := d[i..];
    assert Quad(e, 0) == Quad(d, i);
    if |e| > 3 {
      assert e[3..] == d[i + 3..];
    } else if |e| == 3 {
      assert d[i + 3..] == [];
    }
  }

  /** First loop: three bytes become four characters. */
  method EncodePadded(data: Bytes) returns (result: string)
    ensures result == Padded(data)
  {
    hide Quad, Padded;
    result := "";
    var i := 0;
    assert data[0..] == data;
    while i < |data|
      invariant result + Padded(if i <= |data| then data[i..] else []) == Padded(data)
    {
      QuadsUnfold(data, i);
      result := result + Quad(data, i);
      i := i + 3;
    }
    PaddedNone();
    assert i <= |data| ==> data[i..] == [];
  }

  /** Second loop: the two reserved characters, in place. */
  method ReplaceReserved(s: string) returns (result: string)
    ensures result == MapUrl(s)
  {
    result := s;
    var k := 0;
    while k < |result|
      invariant k <= |result| == |s|
      invariant forall j :: 0 <= j < k ==> result[j] == ToUrl(s[j])
      invariant forall j :: k <= j < |s| ==> result[j] == s[j]
    {
      result := result[k := ToUrl(result[k])];
      k := k + 1;
    }
    AllReplaced(s);
    assert result == Replaced(s, |s|);
  }

  /** Without the equal signs at the end. */
  function Stripped(s: string): string {
    if s != "" && s[|s| - 1] == '=' then Stripped(s[..|s| - 1]) else s
  }

  lemma StrippedIs(d: Bytes)
    ensures Stripped(Encode(d) + Padding(d)) == Encode(d)
  {
    hide Encode;
    var e, p := Encode(d), Padding(d);
    if e != "" {
      EncodeAlphabet(d, |e| - 1);
    }
    assert Stripped(e) == e;
    if p != "" {
      var s := e + "=";
      assert s[..|s| - 1] == e;
      assert Stripped(s) == e;
      if |p| == 2 {
        assert (e + p)[..|e| + 1] == s;
      } else {
        assert e + p == s;
      }
    } else {
      assert e + p == e;
    }
  }

  /** Third loop: drop the padding. */
  method DropPadding(s: string) returns (result: string)
    ensures result == Stripped(s)
  {
    result := s;
    while result != "" && result[|result| - 1] == '='
      invariant Stripped(result) == Stripped(s)
      decreases |result|
    {
      result := result[..|result| - 1];
    }
  }

  method Base64UrlEncode(data: Bytes) returns (result: string)
    ensures result == Encode(data)
  {
    result := EncodePadded(data);
    result := ReplaceReserved(result);
    PaddedIs(data);
    StrippedIs(data);
    result := DropPadding(result);
  }

  function Replaced(s: string, k: nat): string
    requires k <= |s|
  {
    seq(|s|, i requires 0 <= i < |s| => if i < k then ToUrl(s[i]) else s[i])
  }

  lemma {:induction false} AllReplaced(s: string)
    ensures Replaced(s, |s|) == MapUrl(s)
  {
    if s != "" {
      AllReplaced(s[1..]);
      assert Replaced(s, |s|) == [ToUrl(s[0])] + Replaced(s[1..], |s| - 1);
    }
  }

  lemma PaddedNone()
    ensures Padded([]) == ""
  {
  }

  // ---------------------------------------------------------------- decoding

  function MapStd(s: string): string {
    if s == "" then "" else [FromUrl(s[0])] + MapStd(s[1..])
  }

  function PadUp(s: string): (r: string)
    ensures |r| % 4 == 0
    decreases (4 - |s| % 4) % 4
  {
    if |s| % 4 == 0 then s else PadUp(s + "=")
  }

  /**
   What four characters decode to; a third character outside the alphabet counts as -1 in the last byte, as the
   shifts make it.
   */
  function QuadBytes(v0: int, v1: int, v2: int, v3: int): Bytes
    requires 0 <= v0 < 64 && 0 <= v1 < 64 && -1 <= v2 < 64 && -1 <= v3 < 64
  {
    [v0 * 4 + v1 / 16]
    + (if v2 >= 0 then [v1 % 16 * 16 + v2 / 4] else [])
    + (if v3 >= 0 then [(if v2 >= 0 then v2 % 4 * 64 else 192) + v3] else [])
  }

  function DecodeQuads(s: string): Result<Bytes>
    requires |s| % 4 == 0
  {
    if s == "" then Ok([])
    else
      var v0, v1, v2, v3 := StdValue(s[0]), StdValue(s[1]), StdValue(s[2]), StdValue(s[3]);
      if v0 < 0 || v1 < 0 then Err("invalid base64 encoding")
      else
        var more := DecodeQuads(s[4..]);
        if more.Err? then more else Ok(QuadBytes(v0, v1, v2, v3) + more.value)
  }

  function Decode(s: string): Result<Bytes> {
    DecodeQuads(PadUp(MapStd(s)))
  }

  lemma QuadsAt(s: string, i: nat)
    requires |s| % 4 == 0 && i % 4 == 0 && i < |s|
    ensures i + 4 <= |s| && |s[i..]| % 4 == 0 && |s[i + 4..]| % 4 == 0
    ensures var v0, v1, v2, v3 := StdValue(s[i]), StdValue(s[i + 1]), StdValue(s[i + 2]), StdValue(s[i + 3]);
      var more := DecodeQuads(s[i + 4..]);
      && (v0 < 0 || v1 < 0 ==> DecodeQuads(s[i..]).Err?)
      && (v0 >= 0 && v1 >= 0 ==>
            DecodeQuads(s[i..]) == if more.Err? then more else Ok(QuadBytes(v0, v1, v2, v3) + more.value))
  {
    assert s[i..][4..] == s[i + 4..];
  }

  /** Restores the standard alphabet in place, and the padding. */
  method Normalize(input: string) returns (normalized: string)
    ensures normalized == PadUp(MapStd(input))
  {
    normalized := input;
    var k := 0;
    while k < |normalized|
      invariant k <= |normalized| == |input|
      invariant forall j :: 0 <= j < k ==> normalized[j] == FromUrl(input[j])
      invariant forall j :: k <= j < |input| ==> normalized[j] == input[j]
    {
      normalized := normalized[k := FromUrl(normalized[k])];
      k := k + 1;
    }
    MapStdIs(input, normalized);
    while |normalized| % 4 != 0
      invariant PadUp(normalized) == PadUp(MapStd(input))
      decreases (4 - |normalized| % 4) % 4
    {
      normalized := normalized + "=";
    }
  }

  /**
   Decodes four characters at a time; fails at the first quadruple that does not start with two characters of the
   alphabet.
   */
  method Base64UrlDecode(input: string) returns (r: Result<Bytes>)
    ensures r.Err? <==> Decode(input).Err?
    ensures r.Ok? ==> r == Decode(input)
  {
    hide DecodeQuads, QuadBytes, StdValue, PadUp;
    var normalized := Normalize(input);
    var result: Bytes, i := [], 0;
    assert normalized[0..] == normalized;
    ghost var goal := DecodeQuads(normalized);
    assert goal.Ok? ==> result + goal.value == goal.value;
    while i < |normalized|
      invariant i <= |normalized| && i % 4 == 0 && |normalized[i..]| % 4 == 0
      invariant var rest := DecodeQuads(normalized[i..]);
        if rest.Err? then goal.Err? else goal == Ok(result + rest.value)
    {
      QuadsAt(normalized, i);
      TableRange(normalized, i);
      var v0, v1 := StdValue(normalized[i]), StdValue(normalized[i + 1]);
      var v2, v3 := StdValue(normalized[i + 2]), StdValue(normalized[i + 3]);
      if v0 < 0 || v1 < 0 {
        return Err("invalid base64 encoding");
      }
      ghost var more := DecodeQuads(normalized[i + 4..]);
      if more.Ok? {
        Assoc(result, QuadBytes(v0, v1, v2, v3), more.value);
      }
      result := result + QuadBytes(v0, v1, v2, v3);
      i := i + 4;
    }
    DecodeNone(normalized[i..]);
    assert result + [] == result;
    return Ok(result);
  }

  lemma Assoc(a: Bytes, b: Bytes, c: Bytes)
    ensures a + (b + c) == (a + b) + c
  {
  }

  lemma TableRange(s: string, i: nat)
    ensures forall j :: 0 <= j < |s| ==> -1 <= StdValue(s[j]) < 64
  {
  }

  lemma DecodeNone(s: string)
    requires s == ""
    ensures DecodeQuads(s) == Ok([])
  {
  }

  lemma {:induction false} MapStdIs(s: string, t: string)
    requires |t| == |s| && forall j :: 0 <= j < |s| ==> t[j] == FromUrl(s[j])
    ensures MapStd(s) == t
  {
    if s != "" {
      MapStdIs(s[1..], t[1..]);
      assert t == [t[0]] + t[1..];
    }
  }

  // ---------------------------------------------------------------- round trip

  lemma QuadDecodes(d: Bytes)
    requires d != []
    ensures var q := Quad(d, 0);
      && |q| == 4 && StdValue(q[0]) >= 0 && StdValue(q[1]) >= 0
      && QuadBytes(StdValue(q[0]), StdValue(q[1]), StdValue(q[2]), StdValue(q[3])) == if |d| <= 3 then d else d[..3]
  {
    hide StdChar, StdValue;
    forall v: nat | v < 64 ensures StdValue(StdChar(v)) == v {
      StdRoundTrip(v);
    }
    assert StdValue('=') == -1 by {
      PadValue();
    }
    var q := Quad(d, 0);
    var a := d[0];
    var b := if 1 < |d| then d[1] else 0;
    var c := if 2 < |d| then d[2] else 0;
    Arithmetic(a, b, c);
    TableRange(q, 0);
  }

  lemma PadValue()
    ensures StdValue('=') == -1
  {
  }

  lemma StdRoundTrip(v: nat)
    requires v < 64
    ensures StdValue(StdChar(v)) == v
  {
  }

  lemma Arithmetic(a: Byte, b: Byte, c: Byte)
    ensures a / 4 * 4 + (a % 4 * 16 + b / 16) / 16 == a
    ensures (a % 4 * 16 + b / 16) % 16 * 16 + (b % 16 * 4 + c / 64) / 4 == b
    ensures (b % 16 * 4 + c / 64) % 4 * 64 + c % 64 == c
  {
  }

  lemma {:induction false} PaddedDecodes(d: Bytes)
    ensures |Padded(d)| % 4 == 0 && DecodeQuads(Padded(d)) == Ok(d)
    decreases |d|
  {
    hide Quad, StdValue, QuadBytes;
    if d != [] {
      var q, p := Quad(d, 0), Padded(Rest(d));
      QuadDecodes(d);
      PaddedDecodes(Rest(d));
      assert (q + p)[4..] == p && (q + p)[0] == q[0] && (q + p)[1] == q[1] && (q + p)[2] == q[2] && (q + p)[3] == q[3];
      if |d| > 3 {
        assert d == d[..3] + d[3..];
      } else {
        assert d + [] == d;
      }
      TableRange(q, 0);
    }
  }

  lemma {:induction false} PaddedChars(d: Bytes, i: nat)
    requires i < |Padded(d)|
    ensures FromUrl(ToUrl(Padded(d)[i])) == Padded(d)[i]
    decreases |d|
  {
    hide StdChar;
    forall v: nat | v < 64 ensures FromUrl(ToUrl(StdChar(v))) == StdChar(v) {
      BackAndForth(v);
    }
    if i >= 4 {
      PaddedChars(Rest(d), i - 4);
    }
  }

  lemma BackAndForth(v: nat)
    requires v < 64
    ensures FromUrl(ToUrl(StdChar(v))) == StdChar(v)
  {
  }

  lemma {:induction false} MapBack(s: string)
    requires forall i :: 0 <= i < |s| ==> FromUrl(ToUrl(s[i])) == s[i]
    ensures MapStd(MapUrl(s)) == s
  {
    if s != "" {
      MapBack(s[1..]);
      assert MapUrl(s)[1..] == MapUrl(s[1..]) && MapUrl(s)[0] == ToUrl(s[0]);
    }
  }

  lemma {:induction false} MapStdJoin(a: string, b: string)
    ensures MapStd(a + b) == MapStd(a) + MapStd(b) && |MapStd(a)| == |a|
  {
    if a == "" {
      assert a + b == b;
    } else {
      assert (a + b)[1..] == a[1..] + b;
      MapStdJoin(a[1..], b);
    }
  }

  lemma MapStdPadding(d: Bytes)
    ensures MapStd(Padding(d)) == Padding(d)
  {
    assert "=="[1..] == "=" && "="[1..] == "";
  }

  lemma PadUpIs(s: string, p: string)
    requires p == "" || p == "=" || p == "=="
    requires |s + p| % 4 == 0
    ensures PadUp(s) == s + p
  {
    if p == "" {
      assert s + p == s;
    } else if p == "=" {
      assert PadUp(s + "=") == s + "=";
    } else {
      assert (s + "=") + "=" == s + "==";
      assert PadUp(s + "==") == s + "==";
      assert PadUp(s + "=") == PadUp(s + "==");
    }
  }

  /** Decoding undoes encoding, for every byte string. */
  lemma RoundTrip(d: Bytes)
    ensures Decode(Encode(d)) == Ok(d)
  {
    hide DecodeQuads, Encode, Padded, FromUrl, ToUrl;
    PaddedIs(d);
    PaddedDecodes(d);
    forall i | 0 <= i < |Padded(d)| ensures FromUrl(ToUrl(Padded(d)[i])) == Padded(d)[i] {
      PaddedChars(d, i);
    }
    MapBack(Padded(d));
    MapStdJoin(Encode(d), Padding(d));
    MapStdPadding(d);
    PadUpIs(MapStd(Encode(d)), Padding(d));
  }

  // ---------------------------------------------------------------- tokens

  type Hmac = (string, Bytes) -> Bytes

  function SignInput(header: Bytes, payload: Bytes): string {
    Encode(header) + "." + Encode(payload)
  }

  function Sign(hmac: Hmac, header: Bytes, payload: Bytes, secret: Bytes): string {
    SignInput(header, payload) + "." + Encode(hmac(SignInput(header, payload), secret))
  }

  datatype Claims = Claims(header: Bytes, payload: Bytes)

  /** Splits at the first two dots, checks the signature in constant time, and decodes both parts. */
  function Verify(hmac: Hmac, token: string, secret: Bytes): Result<Claims> {
    var firstDot := FindChar(token, '.');
    if firstDot.None? then Err("invalid token format, missing dots")
    else
      var rest := token[firstDot.value + 1..];
      var secondDot := FindChar(rest, '.');
      if secondDot.None? then Err("invalid token format, missing signature")
      else
        var header, payload, sig := token[..firstDot.value], rest[..secondDot.value], rest[secondDot.value + 1..];
        var raw := Decode(sig);
        if raw.Err? then Err(raw.message)
        else if |raw.value| != 32 then Err("invalid signature length")
        else if raw.value != hmac(header + "." + payload, secret) then Err("signature verification failed")
        else
          var h, p := Decode(header), Decode(payload);
          if h.Err? then Err(h.message)
          else if p.Err? then Err(p.message)
          else Ok(Claims(h.value, p.value))
  }

  lemma SplitAtDot(s: string, rest: string)
    requires forall i :: 0 <= i < |s| ==> s[i] != '.'
    ensures FindChar(s + "." + rest, '.') == Some(|s|)
    ensures var t := s + "." + rest; t[..|s|] == s && t[|s| + 1..] == rest
  {
    FindCharIs(s, '.', rest);
  }

  lemma NoDot(d: Bytes)
    ensures forall i :: 0 <= i < |Encode(d)| ==> Encode(d)[i] != '.'
  {
    hide Encode;
    forall i | 0 <= i < |Encode(d)| ensures Encode(d)[i] != '.' {
      EncodeAlphabet(d, i);
    }
  }

  /** A signed token verifies with the same secret, and gives back the header and the payload. */
  lemma SignedVerifies(hmac: Hmac, header: Bytes, payload: Bytes, secret: Bytes)
    requires |hmac(SignInput(header, payload), secret)| == 32
    ensures Verify(hmac, Sign(hmac, header, payload, secret), secret) == Ok(Claims(header, payload))
  {
    hide Encode, Decode, FindChar;
    var h, p := Encode(header), Encode(payload);
    var sig := Encode(hmac(SignInput(header, payload), secret));
    NoDot(header);
    NoDot(payload);
    assert Sign(hmac, header, payload, secret) == h + "." + (p + "." + sig);
    SplitAtDot(h, p + "." + sig);
    SplitAtDot(p, sig);
    RoundTrip(header);
    RoundTrip(payload);
    RoundTrip(hmac(SignInput(header, payload), secret));
  }

  /** A token has this form in at most one way. */
  ghost predicate Parts(token: string, h: string, p: string, sig: string) {
    token == h + "." + p + "." + sig && '.' !in h && '.' !in p
  }

  ghost predicate Genuine(hmac: Hmac, token: string, secret: Bytes, claims: Claims, h: string, p: string, sig: string) {
    && Parts(token, h, p, sig)
    && Decode(sig) == Ok(hmac(h + "." + p, secret)) && |hmac(h + "." + p, secret)| == 32
    && Decode(h) == Ok(claims.header) && Decode(p) == Ok(claims.payload)
  }

  lemma PartsSplit(token: string, h: string, p: string, sig: string)
    requires Parts(token, h, p, sig)
    ensures FindChar(token, '.') == Some(|h|) && token[..|h|] == h
    ensures FindChar(token[|h| + 1..], '.') == Some(|p|)
    ensures token[|h| + 1..][..|p|] == p && token[|h| + 1..][|p| + 1..] == sig
  {
    hide FindChar;
    assert token == h + "." + (p + "." + sig);
    SplitAtDot(h, p + "." + sig);
    SplitAtDot(p, sig);
  }

  lemma SplitParts(token: string, i: nat, j: nat)
    requires FindChar(token, '.') == Some(i) && FindChar(token[i + 1..], '.') == Some(j)
    ensures Parts(token, token[..i], token[i + 1..][..j], token[i + 1..][j + 1..])
  {
    FindCharFinds(token, '.');
    FindCharFinds(token[i + 1..], '.');
    hide FindChar;
    var rest := token[i + 1..];
    assert token == token[..i] + "." + rest;
    assert rest == rest[..j] + "." + rest[j + 1..];
    JoinFive(token[..i], ".", rest[..j], ".", rest[j + 1..]);
  }

  lemma JoinFive(a: string, b: string, c: string, d: string, e: string)
    ensures a + b + (c + d + e) == a + b + c + d + e
  {
  }

  lemma MissingDot(token: string)
    requires FindChar(token, '.').None? || FindChar(token[FindChar(token, '.').value + 1..], '.').None?
    ensures !exists h, p, sig :: Parts(token, h, p, sig)
  {
    hide FindChar;
    if h, p, sig :| Parts(token, h, p, sig) {
      PartsSplit(token, h, p, sig);
    }
  }

  /**
   A token is accepted exactly when it is two parts without dots and a signature, the signature decodes to the 32
   bytes of the HMAC of both parts, and both parts decode; the claims are what they decode to.
   */
  lemma VerifyIff(hmac: Hmac, token: string, secret: Bytes, claims: Claims)
    ensures Verify(hmac, token, secret) == Ok(claims) <==>
      exists h, p, sig :: Genuine(hmac, token, secret, claims, h, p, sig)
  {
    hide Decode, FindChar;
    var first := FindChar(token, '.');
    if first.None? || FindChar(token[first.value + 1..], '.').None? {
      MissingDot(token);
    } else {
      var i, j := first.value, FindChar(token[first.value + 1..], '.').value;
      var h, p, sig := token[..i], token[i + 1..][..j], token[i + 1..][j + 1..];
      SplitParts(token, i, j);
      forall h', p', sig' | Parts(token, h', p', sig') ensures h' == h && p' == p && sig' == sig {
        PartsSplit(token, h', p', sig');
      }
      assert Verify(hmac, token, secret) == Ok(claims) <==> Genuine(hmac, token, secret, claims, h, p, sig);
    }
  }

  /** A signature that decodes to anything but the HMAC of what it signs is refused. */
  lemma ForgeryIsRefused(hmac: Hmac, h: string, p: string, sig: string, secret: Bytes)
    requires '.' !in h && '.' !in p && Decode(sig) != Ok(hmac(h + "." + p, secret))
    ensures Verify(hmac, h + "." + p + "." + sig, secret).Err?
  {
    hide Decode, Verify;
    var token := h + "." + p + "." + sig;
    if Verify(hmac, token, secret).Ok? {
      var claims := Verify(hmac, token, secret).value;
      VerifyIff(hmac, token, secret, claims);
      var h', p', sig' :| Genuine(hmac, token, secret, claims, h', p', sig');
      PartsSplit(token, h, p, sig);
      PartsSplit(token, h', p', sig');
    }
  }

  // ---------------------------------------------------------------- what the characters mean

  /** The alphabet of section 5 of RFC 4648. */
  lemma Alphabet(v: nat)
    requires v < 64
    ensures UrlChar(v) == ("ABCDEFGHIJKLMNOPQRSTUVWXYZ" + "abcdefghijklmnopqrstuvwxyz" + "0123456789" + "-_")[v]
  {
    if v < 26 {
      Letters(v);
    } else if v < 52 {
      Letters(v - 26);
    } else if v < 62 {
      Digits(v - 52);
    }
  }

  lemma Letters(i: nat)
    requires i < 26
    ensures "ABCDEFGHIJKLMNOPQRSTUVWXYZ"[i] == 'A' + i as char
    ensures "abcdefghijklmnopqrstuvwxyz"[i] == 'a' + i as char
  {
  }

  lemma Digits(i: nat)
    requires i < 10
    ensures "0123456789"[i] == '0' + i as char
  {
  }

  /** The values of the characters of one to three bytes: their bits, six at a time, filled up with zeros. */
  ghost predicate SixBits(d: Bytes, v: seq<nat>)
    requires d != []
  {
    && |v| == Min(|d|, 3) + 1 && (forall i :: 0 <= i < |v| ==> v[i] < 64)
    && (|d| == 1 ==> v[0] * 64 + v[1] == d[0] as int * 16)
    && (|d| == 2 ==> v[0] * 4096 + v[1] * 64 + v[2] == d[0] as int * 1024 + d[1] as int * 4)
    && (|d| >= 3 ==>
          v[0] * 262144 + v[1] * 4096 + v[2] * 64 + v[3] == d[0] as int * 65536 + d[1] as int * 256 + d[2] as int)
  }

  /** Three bytes become the four characters whose values are their 24 bits; the rest is encoded in the same way. */
  lemma EncodeIsBits(d: Bytes) returns (v: seq<nat>)
    requires d != []
    ensures SixBits(d, v)
    ensures Encode(d) == seq(|v|, i requires 0 <= i < |v| => UrlChar(v[i])) + Encode(if |d| > 3 then d[3..] else [])
  {
    hide UrlChar, Encode;
    EncodeUnfold(d);
    var a := d[0] as int;
    var b := if |d| > 1 then d[1] as int else 0;
    var c := if |d| > 2 then d[2] as int else 0;
    v := [a / 4, a % 4 * 16 + b / 16, b % 16 * 4 + c / 64, c % 64][..Min(|d|, 3) + 1];
    assert First(d) == seq(|v|, i requires 0 <= i < |v| => UrlChar(v[i]));
  }

  lemma EncodeUnfold(d: Bytes)
    requires d != []
    ensures Encode(d) == First(d) + Encode(Rest(d))
  {
  }

  /** What may occur in a text to decode: either alphabet. */
  predicate IsCode(c: char) {
    IsUrlChar(c) || c == '+' || c == '/'
  }

  lemma {:induction false} QuadsErrIff(t: string)
    requires |t| % 4 == 0
    ensures DecodeQuads(t).Err? <==> exists i :: 0 <= i < |t| && i % 4 < 2 && StdValue(t[i]) < 0
  {
    hide QuadBytes, StdValue;
    TableRange(t, 0);
    if t != "" {
      QuadsErrIff(t[4..]);
      assert forall i :: 4 <= i < |t| ==> t[i] == t[4..][i - 4] && i % 4 == (i - 4) % 4;
      assert forall i :: 0 <= i < |t| - 4 ==> t[4..][i] == t[i + 4] && i % 4 == (i + 4) % 4;
      assert forall i :: 0 <= i < 4 && i % 4 < 2 ==> i == 0 || i == 1;
    }
  }

  lemma {:induction false} PadUpChars(s: string)
    ensures |PadUp(s)| == (|s| + 3) / 4 * 4
    ensures forall i :: 0 <= i < |PadUp(s)| ==> PadUp(s)[i] == if i < |s| then s[i] else '='
    decreases (4 - |s| % 4) % 4
  {
    if |s| % 4 != 0 {
      PadUpChars(s + "=");
    }
  }

  lemma {:induction false} MapStdChars(s: string)
    ensures |MapStd(s)| == |s| && forall i :: 0 <= i < |s| ==> MapStd(s)[i] == FromUrl(s[i])
  {
    if s != "" {
      MapStdChars(s[1..]);
    }
  }

  lemma CodeIs(c: char)
    ensures StdValue(FromUrl(c)) < 0 <==> !IsCode(c)
  {
  }

  /**
   Decoding fails exactly when one character is left over, or one of the first two characters of a quadruple is in
   neither alphabet; the other two are skipped without an error.
   */
  lemma DecodeErrIff(s: string)
    ensures Decode(s).Err? <==> |s| % 4 == 1 || exists i :: 0 <= i < |s| && i % 4 < 2 && !IsCode(s[i])
  {
    hide DecodeQuads, PadUp, MapStd, StdValue, FromUrl, IsCode;
    var t := PadUp(MapStd(s));
    MapStdChars(s);
    PadUpChars(MapStd(s));
    QuadsErrIff(t);
    forall i | 0 <= i < |s| ensures StdValue(t[i]) < 0 <==> !IsCode(s[i]) {
      CodeIs(s[i]);
    }
    assert StdValue('=') < 0 by {
      PadValue();
    }
    if |s| % 4 == 1 {
      assert |s| < |t| && |s| % 4 < 2 && t[|s|] == '=';
    }
  }

  /** Four characters of the alphabet give three bytes of the same 24 bits. */
  lemma QuadIsBits(v0: nat, v1: nat, v2: nat, v3: nat)
    requires v0 < 64 && v1 < 64 && v2 < 64 && v3 < 64
    ensures var b := QuadBytes(v0, v1, v2, v3);
      |b| == 3 && b[0] as int * 65536 + b[1] as int * 256 + b[2] as int == v0 * 262144 + v1 * 4096 + v2 * 64 + v3
  {
    assert v1 == v1 / 16 * 16 + v1 % 16 && v2 == v2 / 4 * 4 + v2 % 4;
  }

  /** With the third or the fourth character outside the alphabet, the source's shifts decide. */
  lemma BrokenQuadIs(v0: nat, v1: nat, v2: int, v3: int)
    requires v0 < 64 && v1 < 64 && -1 <= v2 < 64 && -1 <= v3 < 64 && (v2 < 0 || v3 < 0)
    ensures var b := QuadBytes(v0, v1, v2, v3);
      && (v2 >= 0 ==> |b| == 2 && b[0] as int * 256 + b[1] as int == (v0 * 4096 + v1 * 64 + v2) / 4)
      && (v2 < 0 && v3 < 0 ==> |b| == 1 && b[0] == (v0 * 64 + v1) / 16)
      && (v2 < 0 && v3 >= 0 ==> |b| == 2 && b[0] == (v0 * 64 + v1) / 16 && b[1] == (v2 * 64 + v3) % 256)
  {
    assert v1 == v1 / 16 * 16 + v1 % 16;
  }
}
