/**
 JSON texts: trees, their printed form with the escaping of the response writers, and an
 independent parser for the grammar of section 2 of RFC 8259 (without the optional
 whitespace, which the printer never produces).
 */
module JsonText {
  import opened Base

  /** An object's or an array's entries; the names in an array are empty. */
  datatype Entry = Entry(name: string, value: Json)

  datatype Json =
    | Null
    | Bool(b: bool)
    | Num(text: string)
    | Str(s: string)
    | Container(isObject: bool, entries: seq<Entry>)

  // ---------------------------------------------------------------- numbers

  predicate IsDigit(c: char) {
    '0' <= c <= '9'
  }

  predicate IsNumChar(c: char) {
    IsDigit(c) || c == '-' || c == '+' || c == '.' || c == 'e' || c == 'E'
  }

  /** Length of the run of digits at the front. */
  function Digits(s: string): (n: nat)
    ensures n <= |s|
  {
    if s == "" || !IsDigit(s[0]) then 0 else 1 + Digits(s[1..])
  }

  /** The number grammar of section 6 of RFC 8259. */
  predicate IsNumber(s: string) {
    var t := if s != "" && s[0] == '-' then s[1..] else s;
    var n := Digits(t);
    n > 0 && (t[0] == '0' ==> n == 1) && IsFraction(t[n..])
  }

  predicate IsFraction(s: string) {
    if s != "" && s[0] == '.' then
      var n := Digits(s[1..]);
      n > 0 && IsExponent(s[1 + n..])
    else IsExponent(s)
  }

  predicate IsExponent(s: string) {
    s != "" ==>
      && (s[0] == 'e' || s[0] == 'E')
      && var t := if |s| > 1 && (s[1] == '+' || s[1] == '-') then s[2..] else s[1..];
         t != "" && Digits(t) == |t|
  }

  /** What an integer is written as. */
  function Decimal(n: int): (s: string) {
    if n < 0 then "-" + NatText(-n) else NatText(n)
  }

  function NatText(n: nat): (s: string)
    ensures |s| > 0 && (s[0] == '0' ==> n == 0 && |s| == 1)
  {
    if n < 10 then ['0' + n as char] else NatText(n / 10) + ['0' + (n % 10) as char]
  }

  /** The value of a run of digits. */
  function NatValue(s: string): nat {
    if s == "" then 0
    else
      var c := s[|s| - 1];
      10 * NatValue(s[..|s| - 1]) + if IsDigit(c) then c as int - '0' as int else 0
  }

  function IntValue(s: string): int {
    if s != "" && s[0] == '-' then 0 - NatValue(s[1..]) else NatValue(s)
  }

  lemma {:induction false} AllDigits(s: string)
    requires forall i :: 0 <= i < |s| ==> IsDigit(s[i])
    ensures Digits(s) == |s|
  {
    if s != "" {
      AllDigits(s[1..]);
    }
  }

  lemma {:induction false} NatTextFacts(n: nat)
    ensures var s := NatText(n); NatValue(s) == n && forall i :: 0 <= i < |s| ==> IsDigit(s[i])
  {
    if n >= 10 {
      NatTextFacts(n / 10);
      var s := NatText(n);
      assert s[..|s| - 1] == NatText(n / 10);
    } else {
      assert NatText(n)[..0] == "";
    }
  }

  /** Every integer is written as a JSON number with its value. */
  lemma DecimalRoundTrip(n: int)
    ensures IsNumber(Decimal(n)) && IntValue(Decimal(n)) == n
  {
    var t := NatText(if n < 0 then -n else n);
    NatTextFacts(if n < 0 then -n else n);
    AllDigits(t);
    assert t[|t|..] == "";
    if n < 0 {
      assert Decimal(n)[1..] == t;
    } else {
      assert t[0] != '-';
    }
  }

  // ---------------------------------------------------------------- strings

  predicate NeedsEscape(c: char) {
    c as int < 0x20 || c == '"' || c == '\\' || c == '/'
  }

  function EscapeChar(c: char): string {
    if c == '"' then "\\\""
    else if c == '\\' then "\\\\"
    else if c == '/' then "\\/"
    else if c as int == 8 then "\\b"
    else if c as int == 9 then "\\t"
    else if c as int == 10 then "\\n"
    else if c as int == 12 then "\\f"
    else if c as int == 13 then "\\r"
    else if c as int < 0x20 then ['\\', 'u', '0', '0', HexDigit(c as int / 16), HexDigit(c as int % 16)]
    else [c]
  }

  /** The escapes, by the name that section 7 of RFC 8259 gives them. */
  lemma EscapeTable(c: char)
    ensures NeedsEscape(c) <==> EscapeChar(c) != [c]
    ensures c in "\"\\/" ==> EscapeChar(c) == ['\\', c]
    ensures EscapeChar('\n') == "\\n" && EscapeChar('\r') == "\\r" && EscapeChar('\t') == "\\t"
    ensures EscapeChar(8 as char) == "\\b" && EscapeChar(12 as char) == "\\f"
    ensures c as int < 32 && c as int !in {8, 9, 10, 12, 13} ==>
      EscapeChar(c) == (if c as int < 16 then "\\u000" else "\\u001") + ["0123456789abcdef"[c as int % 16]]
  {
  }

  function Escaped(s: string): string {
    if s == "" then "" else EscapeChar(s[0]) + Escaped(s[1..])
  }

  function Quoted(s: string): string {
    "\"" + Escaped(s) + "\""
  }

  lemma EscapedUnfold(s: string, i: nat)
    requires i < |s|
    ensures Escaped(s[i..]) == EscapeChar(s[i]) + Escaped(s[i + 1..])
  {
    assert s[i..][1..] == s[i + 1..];
  }

  lemma {:induction false} EscapedSpan(s: string, i: nat, j: nat)
    requires i <= j <= |s| && forall k :: i <= k < j ==> !NeedsEscape(s[k])
    ensures Escaped(s[i..]) == s[i..j] + Escaped(s[j..])
    decreases j - i
  {
    hide Escaped;
    if i < j {
      EscapedUnfold(s, i);
      EscapedSpan(s, i + 1, j);
      assert EscapeChar(s[i]) == [s[i]];
      hide EscapeChar;
      assert s[i..j] == [s[i]] + s[i + 1..j];
    }
  }

  /** Copies whole spans of plain characters, and stops only at those to escape. */
  method AppendString(sink: string, s: string) returns (r: string)
    ensures r == sink + Escaped(s)
  {
    hide Escaped, EscapeChar;
    r := sink;
    var p, spanStart := 0, 0;
    assert s[0..] == s;
    while p < |s|
      invariant spanStart <= p <= |s|
      invariant forall k :: spanStart <= k < p ==> !NeedsEscape(s[k])
      invariant r + Escaped(s[spanStart..]) == sink + Escaped(s)
    {
      if NeedsEscape(s[p]) {
        EscapedSpan(s, spanStart, p);
        EscapedUnfold(s, p);
        if spanStart < p {
          r := r + s[spanStart..p];
        }
        r := r + EscapeChar(s[p]);
        spanStart := p + 1;
      }
      p := p + 1;
    }
    EscapedSpan(s, spanStart, p);
    EscapedNone(s[p..]);
    if spanStart < p {
      r := r + s[spanStart..p];
    }
  }

  method AppendQuoted(sink: string, s: string) returns (r: string)
    ensures r == sink + Quoted(s)
  {
    r := AppendString(sink + "\"", s);
    r := r + "\"";
  }

  method AppendLabel(sink: string, name: string) returns (r: string)
    ensures r == sink + Label(true, name)
  {
    hide Quoted;
    r := AppendQuoted(sink, name);
    r := r + ":";
  }

  lemma EscapedNone(s: string)
    requires s == ""
    ensures Escaped(s) == ""
  {
  }

  // ---------------------------------------------------------------- printing

  function Print(t: Json): string
    decreases t
  {
    match t
    case Null => "null"
    case Bool(b) => if b then "true" else "false"
    case Num(text) => text
    case Str(s) => Quoted(s)
    case Container(isObject, entries) => Opening(isObject) + PrintAll(isObject, entries) + Closing(isObject)
  }

  function Opening(isObject: bool): string { if isObject then "{" else "[" }

  function Closing(isObject: bool): string { if isObject then "}" else "]" }

  function Label(isObject: bool, name: string): string {
    if isObject then Quoted(name) + ":" else ""
  }

  function PrintAll(isObject: bool, entries: seq<Entry>): string
    decreases entries
  {
    if entries == [] then ""
    else
      var first := Label(isObject, entries[0].name) + Print(entries[0].value);
      if |entries| == 1 then first else first + "," + PrintAll(isObject, entries[1..])
  }

  function Comma(entries: seq<Entry>): string {
    if entries == [] then "" else ","
  }

  function PrintOne(isObject: bool, e: Entry): string {
    Label(isObject, e.name) + Print(e.value)
  }

  lemma PrintAllUnfold(isObject: bool, es: seq<Entry>)
    requires es != []
    ensures PrintAll(isObject, es) == PrintOne(isObject, es[0]) + Comma(es[1..]) + PrintAll(isObject, es[1..])
  {
    hide Print, Label;
    if |es| == 1 {
      assert es[1..] == [];
    }
  }

  lemma {:induction false} PrintAllSnoc(isObject: bool, es: seq<Entry>, e: Entry)
    ensures PrintAll(isObject, es + [e]) == PrintAll(isObject, es) + Comma(es) + PrintOne(isObject, e)
  {
    hide PrintOne, PrintAll;
    PrintAllUnfold(isObject, es + [e]);
    if es == [] {
      assert (es + [e])[1..] == [];
      PrintAllNone(isObject);
    } else {
      PrintAllUnfold(isObject, es);
      assert (es + [e])[1..] == es[1..] + [e];
      PrintAllSnoc(isObject, es[1..], e);
      Regroup(PrintOne(isObject, es[0]), Comma(es[1..]), PrintAll(isObject, es[1..]), PrintOne(isObject, e));
      if es[1..] == [] {
        PrintAllNone(isObject);
      }
    }
  }

  lemma PrintAllNone(isObject: bool)
    ensures PrintAll(isObject, []) == ""
  {
  }

  lemma Regroup(a: string, comma: string, p: string, z: string)
    ensures a + "," + (p + comma + z) == (a + "," + p) + comma + z
    ensures a + "," + (p + "," + z) == (a + "," + p) + "," + z
  {
  }

  /** A tree that stands for a JSON text: array entries have no names, numbers follow the grammar. */
  predicate WellFormed(t: Json)
    decreases t
  {
    match t
    case Num(text) => IsNumber(text)
    case Container(isObject, entries) => AllWellFormed(isObject, entries)
    case _ => true
  }

  predicate AllWellFormed(isObject: bool, entries: seq<Entry>)
    decreases entries
  {
    forall i :: 0 <= i < |entries| ==> (isObject || entries[i].name == "") && WellFormed(entries[i].value)
  }

  // ---------------------------------------------------------------- parsing

  datatype Parsed<T> = Parsed(value: T, rest: string)

  /** One character of a string, at the front of `s`. */
  function ParseChar(s: string): (r: Option<Parsed<char>>)
    ensures r.Some? ==> |r.value.rest| < |s|
  {
    if s == "" || s[0] == '"' || s[0] as int < 0x20 then None
    else if s[0] != '\\' then Some(Parsed(s[0], s[1..]))
    else if |s| < 2 then None
    else if s[1] == '"' || s[1] == '\\' || s[1] == '/' then Some(Parsed(s[1], s[2..]))
    else if s[1] == 'b' then Some(Parsed(8 as char, s[2..]))
    else if s[1] == 't' then Some(Parsed(9 as char, s[2..]))
    else if s[1] == 'n' then Some(Parsed(10 as char, s[2..]))
    else if s[1] == 'f' then Some(Parsed(12 as char, s[2..]))
    else if s[1] == 'r' then Some(Parsed(13 as char, s[2..]))
    else if s[1] == 'u' && |s| >= 6 then
      var a, b, c, d := HexDigitValue(s[2]), HexDigitValue(s[3]), HexDigitValue(s[4]), HexDigitValue(s[5]);
      if a.Some? && b.Some? && c.Some? && d.Some? then
        var n := 4096 * a.value + 256 * b.value + 16 * c.value + d.value;
        if n < 0xd800 then Some(Parsed(n as char, s[6..])) else None
      else None
    else None
  }

  /** The rest of a string whose opening quote has been read. */
  function ParseString(s: string): (r: Option<Parsed<string>>)
    ensures r.Some? ==> |r.value.rest| < |s|
    decreases |s|
  {
    if s == "" then None
    else if s[0] == '"' then Some(Parsed("", s[1..]))
    else
      var c := ParseChar(s);
      if c.None? then None
      else
        var more := ParseString(c.value.rest);
        if more.None? then None else Some(Parsed([c.value.value] + more.value.value, more.value.rest))
  }

  function NumRun(s: string): (n: nat)
    ensures n <= |s|
  {
    if s == "" || !IsNumChar(s[0]) then 0 else 1 + NumRun(s[1..])
  }

  predicate Starts(s: string, word: string) {
    |word| <= |s| && s[..|word|] == word
  }

  function ParseValue(s: string): (r: Option<Parsed<Json>>)
    ensures r.Some? ==> |r.value.rest| < |s|
    decreases |s|, 0
  {
    if s == "" then None
    else if Starts(s, "null") then Some(Parsed(Null, s[4..]))
    else if Starts(s, "true") then Some(Parsed(Bool(true), s[4..]))
    else if Starts(s, "false") then Some(Parsed(Bool(false), s[5..]))
    else if s[0] == '"' then
      var t := ParseString(s[1..]);
      if t.None? then None else Some(Parsed(Str(t.value.value), t.value.rest))
    else if s[0] == '[' || s[0] == '{' then
      var isObject := s[0] == '{';
      if Starts(s[1..], Closing(isObject)) then Some(Parsed(Container(isObject, []), s[2..]))
      else
        var es := ParseAll(isObject, s[1..]);
        if es.None? then None else Some(Parsed(Container(isObject, es.value.value), es.value.rest))
    else
      var n := NumRun(s);
      if IsNumber(s[..n]) && n > 0 then Some(Parsed(Num(s[..n]), s[n..])) else None
  }

  function ParseLabel(isObject: bool, s: string): (r: Option<Parsed<string>>)
    ensures r.Some? ==> |r.value.rest| <= |s|
  {
    if !isObject then Some(Parsed("", s))
    else if !Starts(s, "\"") then None
    else
      var name := ParseString(s[1..]);
      if name.None? || !Starts(name.value.rest, ":") then None
      else Some(Parsed(name.value.value, name.value.rest[1..]))
  }

  /** One or more entries, and the closing bracket. */
  function ParseAll(isObject: bool, s: string): (r: Option<Parsed<seq<Entry>>>)
    ensures r.Some? ==> |r.value.rest| < |s|
    decreases |s|, 1
  {
    var name := ParseLabel(isObject, s);
    if name.None? then None
    else
      var v := ParseValue(name.value.rest);
      if v.None? then None
      else
        var e, rest := Entry(name.value.value, v.value.value), v.value.rest;
        if Starts(rest, Closing(isObject)) then Some(Parsed([e], rest[1..]))
        else if Starts(rest, ",") then
          var more := ParseAll(isObject, rest[1..]);
          if more.None? then None else Some(Parsed([e] + more.value.value, more.value.rest))
        else None
  }

  // ---------------------------------------------------------------- round trips

  lemma CharRoundTrip(c: char, rest: string)
    ensures ParseChar(EscapeChar(c) + rest) == Some(Parsed(c, rest)) && EscapeChar(c)[0] != '"'
  {
    var s := EscapeChar(c) + rest;
    if s[0] == '\\' && s[1] == 'u' {
      assert |EscapeChar(c)| == 6 && s[6..] == rest;
      assert HexDigitValue(s[4]) == Some(c as int / 16) && HexDigitValue(s[5]) == Some(c as int % 16);
    } else if s[0] == '\\' {
      assert s[2..] == rest;
    } else {
      assert s[1..] == rest;
    }
  }

  lemma {:induction false} StringRoundTrip(x: string, rest: string)
    ensures ParseString(Escaped(x) + "\"" + rest) == Some(Parsed(x, rest))
  {
    hide EscapeChar, ParseChar;
    var s := Escaped(x) + "\"" + rest;
    if x == "" {
      assert s == "\"" + rest;
      assert s[1..] == rest;
    } else {
      var more := Escaped(x[1..]) + "\"" + rest;
      CharRoundTrip(x[0], more);
      Joined(EscapeChar(x[0]), Escaped(x[1..]), "\"", rest);
      assert s == EscapeChar(x[0]) + more;
      StringRoundTrip(x[1..], rest);
      assert [x[0]] + x[1..] == x;
    }
  }

  lemma Joined(a: string, b: string, c: string, d: string)
    ensures (a + b) + c + d == a + (b + c + d)
  {
  }

  lemma {:induction false} DigitsAreDigits(s: string, i: nat)
    requires i < Digits(s)
    ensures IsDigit(s[i])
  {
    if i > 0 {
      DigitsAreDigits(s[1..], i - 1);
    }
  }

  lemma ExponentChars(s: string, i: nat)
    requires IsExponent(s) && i < |s|
    ensures IsNumChar(s[i])
  {
    var k := if |s| > 1 && (s[1] == '+' || s[1] == '-') then 2 else 1;
    if i >= k {
      DigitsAreDigits(s[k..], i - k);
    }
  }

  lemma FractionChars(s: string, i: nat)
    requires IsFraction(s) && i < |s|
    ensures IsNumChar(s[i])
  {
    if s[0] == '.' {
      var n := Digits(s[1..]);
      if 0 < i <= n {
        DigitsAreDigits(s[1..], i - 1);
      } else if i > n {
        ExponentChars(s[1 + n..], i - 1 - n);
      }
    } else {
      ExponentChars(s, i);
    }
  }

  lemma NumberChars(s: string, i: nat)
    requires IsNumber(s) && i < |s|
    ensures IsNumChar(s[i])
  {
    var k := if s[0] == '-' then 1 else 0;
    var t := s[k..];
    var n := Digits(t);
    if k <= i < k + n {
      DigitsAreDigits(t, i - k);
    } else if i >= k + n {
      FractionChars(t[n..], i - k - n);
    }
  }

  /** What may follow a value without being taken for part of a number. */
  predicate Ends(rest: string) {
    rest == "" || !IsNumChar(rest[0])
  }

  lemma {:induction false} NumRunIs(text: string, rest: string)
    requires Ends(rest) && forall i :: 0 <= i < |text| ==> IsNumChar(text[i])
    ensures NumRun(text + rest) == |text|
  {
    if text == "" {
      assert text + rest == rest;
    } else {
      assert (text + rest)[1..] == text[1..] + rest;
      NumRunIs(text[1..], rest);
    }
  }

  lemma NumRoundTrip(text: string, rest: string)
    requires IsNumber(text) && Ends(rest)
    ensures ParseValue(text + rest) == Some(Parsed(Num(text), rest))
  {
    hide IsNumber;
    forall i | 0 <= i < |text| ensures IsNumChar(text[i]) {
      NumberChars(text, i);
    }
    NumberNotEmpty(text);
    NumRunIs(text, rest);
    var s := text + rest;
    assert s[..|text|] == text && s[|text|..] == rest;
    assert IsNumChar(s[0]);
    NotAWord(s, "null");
    NotAWord(s, "true");
    NotAWord(s, "false");
  }

  lemma NumberNotEmpty(text: string)
    requires IsNumber(text)
    ensures text != ""
  {
  }

  lemma NotAWord(s: string, word: string)
    requires s != "" && word != "" && s[0] != word[0]
    ensures !Starts(s, word)
  {
    if |word| <= |s| {
      assert s[..|word|][0] == s[0];
    }
  }

  lemma WordRoundTrip(t: Json, rest: string)
    requires t.Null? || t.Bool?
    ensures ParseValue(Print(t) + rest) == Some(Parsed(t, rest))
  {
    var s := Print(t) + rest;
    assert s[..|Print(t)|] == Print(t) && s[|Print(t)|..] == rest;
    if t.Bool? {
      NotAWord(s, "null");
      if !t.b {
        NotAWord(s, "true");
      }
    }
  }

  lemma StrRoundTrip(x: string, rest: string)
    ensures ParseValue(Quoted(x) + rest) == Some(Parsed(Str(x), rest))
  {
    hide ParseString, Escaped;
    var s := Quoted(x) + rest;
    AfterQuote(Escaped(x), rest);
    StringRoundTrip(x, rest);
    NotAWord(s, "null");
    NotAWord(s, "true");
    NotAWord(s, "false");
  }

  lemma PrintFirst(t: Json)
    requires WellFormed(t)
    ensures Print(t) != "" && Print(t)[0] != ']' && Print(t)[0] != '}'
  {
    if t.Num? {
      NumberNotEmpty(t.text);
      NumberChars(t.text, 0);
    }
  }

  lemma LabelRoundTrip(isObject: bool, name: string, rest: string)
    requires isObject || name == ""
    ensures ParseLabel(isObject, Label(isObject, name) + rest) == Some(Parsed(name, rest))
  {
    hide ParseString, Escaped;
    var s := Label(isObject, name) + rest;
    if isObject {
      assert s == Quoted(name) + (":" + rest);
      AfterQuote(Escaped(name), ":" + rest);
      StringRoundTrip(name, ":" + rest);
      AfterOne(':', rest);
    } else {
      assert s == rest;
    }
  }

  lemma AfterQuote(e: string, rest: string)
    ensures var s := ("\"" + e + "\"") + rest; s[..1] == "\"" && s[0] == '"' && s[1..] == e + "\"" + rest
  {
    var s := ("\"" + e + "\"") + rest;
    assert s == "\"" + (e + "\"" + rest);
  }

  lemma AfterOne(c: char, rest: string)
    ensures ([c] + rest)[..1] == [c] && ([c] + rest)[1..] == rest
  {
  }

  /** Printing and parsing again gives the same tree, whatever follows the text. */
  lemma {:induction false} RoundTrip(t: Json, rest: string)
    requires WellFormed(t) && Ends(rest)
    ensures ParseValue(Print(t) + rest) == Some(Parsed(t, rest))
    decreases t
  {
    match t
    case Num(text) => NumRoundTrip(text, rest);
    case Str(x) => StrRoundTrip(x, rest);
    case Container(isObject, es) =>
      if es == [] {
        ContainerEmpty(isObject, rest);
      } else {
        AllRoundTrip(isObject, es, rest);
        ContainerRoundTrip(isObject, es, rest);
      }
    case _ => WordRoundTrip(t, rest);
  }

  lemma ContainerEmpty(isObject: bool, rest: string)
    ensures ParseValue(Print(Container(isObject, [])) + rest) == Some(Parsed(Container(isObject, []), rest))
  {
    hide ParseAll;
    var s := Print(Container(isObject, [])) + rest;
    NotAWord(s, "null");
    NotAWord(s, "true");
    NotAWord(s, "false");
    assert s[1..] == Closing(isObject) + rest && s[2..] == rest;
  }

  lemma ContainerRoundTrip(isObject: bool, es: seq<Entry>, rest: string)
    requires es != [] && AllWellFormed(isObject, es)
    requires ParseAll(isObject, PrintAll(isObject, es) + Closing(isObject) + rest) == Some(Parsed(es, rest))
    ensures ParseValue(Print(Container(isObject, es)) + rest) == Some(Parsed(Container(isObject, es), rest))
  {
    hide ParseAll, PrintAll, AllWellFormed;
    var s := Print(Container(isObject, es)) + rest;
    EntriesFirst(isObject, es);
    DropFirst(Opening(isObject), PrintAll(isObject, es), Closing(isObject), rest);
    NotAWord(s, "null");
    NotAWord(s, "true");
    NotAWord(s, "false");
    NotAWord(s[1..], Closing(isObject));
  }

  lemma DropFirst(o: string, a: string, c: string, rest: string)
    requires |o| == 1 && a != ""
    ensures var s := (o + a + c) + rest; s[0] == o[0] && s[1..] == a + c + rest && s[1..][0] == a[0]
  {
    var s := (o + a + c) + rest;
    assert s == o + (a + c + rest);
  }

  lemma EntriesFirst(isObject: bool, es: seq<Entry>)
    requires es != [] && AllWellFormed(isObject, es)
    ensures PrintAll(isObject, es) != "" && PrintAll(isObject, es)[0] != Closing(isObject)[0]
  {
    PrintAllUnfold(isObject, es);
    PrintFirst(es[0].value);
    hide PrintAll, Print, WellFormed;
  }

  /** What follows the first entry. */
  function AfterFirst(isObject: bool, es: seq<Entry>, rest: string): string
    requires es != []
  {
    (if |es| == 1 then "" else "," + PrintAll(isObject, es[1..])) + Closing(isObject) + rest
  }

  lemma AllSplit(isObject: bool, es: seq<Entry>, rest: string)
    requires es != []
    ensures PrintAll(isObject, es) + Closing(isObject) + rest ==
      Label(isObject, es[0].name) + (Print(es[0].value) + AfterFirst(isObject, es, rest))
  {
    hide Label, Print, Closing, PrintAll;
    PrintAllUnfold(isObject, es);
    var more := if |es| == 1 then "" else "," + PrintAll(isObject, es[1..]);
    if |es| == 1 {
      assert es[1..] == [];
      PrintAllNone(isObject);
    }
    assert Comma(es[1..]) + PrintAll(isObject, es[1..]) == more;
    SplitText(Label(isObject, es[0].name), Print(es[0].value), Comma(es[1..]), PrintAll(isObject, es[1..]),
      Closing(isObject), rest);
  }

  lemma SplitText(l: string, p: string, comma: string, q: string, c: string, rest: string)
    ensures ((l + p) + comma + q) + c + rest == l + (p + ((comma + q) + c + rest))
  {
    assert (l + p) + comma + q == l + (p + (comma + q));
    assert (l + (p + (comma + q))) + c == l + ((p + (comma + q)) + c);
    assert (l + ((p + (comma + q)) + c)) + rest == l + (((p + (comma + q)) + c) + rest);
    assert (p + (comma + q)) + c == p + ((comma + q) + c);
    assert (p + ((comma + q) + c)) + rest == p + ((comma + q) + c + rest);
  }

  lemma {:induction false} AllRoundTrip(isObject: bool, es: seq<Entry>, rest: string)
    requires es != [] && AllWellFormed(isObject, es)
    ensures ParseAll(isObject, PrintAll(isObject, es) + Closing(isObject) + rest) == Some(Parsed(es, rest))
    decreases es
  {
    hide PrintAll, Label, Print, ParseValue, ParseLabel;
    var e, after := es[0], AfterFirst(isObject, es, rest);
    AllSplit(isObject, es, rest);
    LabelRoundTrip(isObject, e.name, Print(e.value) + after);
    assert Ends(after);
    RoundTrip(e.value, after);
    if |es| == 1 {
      assert after == Closing(isObject) + rest;
      assert after[..1] == Closing(isObject) && after[1..] == rest;
      assert es == [e];
    } else {
      var more := PrintAll(isObject, es[1..]) + Closing(isObject) + rest;
      assert after == "," + more;
      assert after[..1] == "," && after[1..] == more;
      NotAWord(after, Closing(isObject));
      AllRoundTrip(isObject, es[1..], rest);
      assert es == [e] + es[1..];
    }
  }
}
