/**
 The chunked response body: collecting chunks and trailers, serializing them, computing
 the size beforehand; and a decoder for section 7.1 of RFC 9112 to read them back.
 */
module ChunkedBody {
  import opened Base

  datatype Field = Field(name: string, value: string)

  const CRLF: string := "\r\n"

  // ---------------------------------------------------------------- hexadecimal sizes

  function HexText(n: nat): (s: string)
    ensures s != "" && forall i :: 0 <= i < |s| ==> ('0' <= s[i] <= '9' || 'a' <= s[i] <= 'f')
  {
    if n < 16 then [HexDigit(n)] else HexText(n / 16) + [HexDigit(n % 16)]
  }

  /** The value of a non-empty text of hexadecimal digits. */
  function HexValue(s: string): Option<nat> {
    if s == "" then None
    else
      var d := HexDigitValue(s[|s| - 1]);
      if d.None? then None
      else if |s| == 1 then d
      else
        var front := HexValue(s[..|s| - 1]);
        if front.None? then None else Some(16 * front.value + d.value)
  }

  lemma {:induction false} HexRoundTrip(n: nat)
    ensures HexValue(HexText(n)) == Some(n)
  {
    if n >= 16 {
      HexRoundTrip(n / 16);
      assert HexText(n)[..|HexText(n)| - 1] == HexText(n / 16);
    }
  }

  /** No leading zeros: the digits are as few as possible. */
  lemma {:induction false} HexIsShort(n: nat)
    ensures HexText(n)[0] == '0' ==> n == 0 && HexText(n) == "0"
  {
    if n >= 16 {
      HexIsShort(n / 16);
    }
  }

  // ---------------------------------------------------------------- the wire format

  function Frame(chunk: string): string {
    HexText(|chunk|) + CRLF + chunk + CRLF
  }

  function Frames(chunks: seq<string>): string {
    if chunks == [] then "" else Frame(chunks[0]) + Frames(chunks[1..])
  }

  function Line(f: Field): string {
    f.name + ": " + f.value + CRLF
  }

  function Lines(fs: seq<Field>): string {
    if fs == [] then "" else Line(fs[0]) + Lines(fs[1..])
  }

  function Tail(fs: seq<Field>): string {
    "0\r\n" + Lines(fs) + CRLF
  }

  function Wire(chunks: seq<string>, fs: seq<Field>): string {
    Frames(chunks) + Tail(fs)
  }

  lemma {:induction false} FramesSnoc(chunks: seq<string>, c: string)
    ensures Frames(chunks + [c]) == Frames(chunks) + Frame(c)
  {
    hide Frame;
    if chunks == [] {
      assert [c][1..] == [];
      assert chunks + [c] == [c];
    } else {
      assert (chunks + [c])[1..] == chunks[1..] + [c];
      FramesSnoc(chunks[1..], c);
    }
  }

  lemma {:induction false} LinesSnoc(fs: seq<Field>, f: Field)
    ensures Lines(fs + [f]) == Lines(fs) + Line(f)
  {
    hide Line;
    if fs == [] {
      assert [f][1..] == [];
      assert fs + [f] == [f];
    } else {
      assert (fs + [f])[1..] == fs[1..] + [f];
      LinesSnoc(fs[1..], f);
    }
  }

  /** Appends the serialized body to `out`. */
  method SerializeTo(out: string, chunks: seq<string>, fs: seq<Field>) returns (r: string)
    ensures r == out + Wire(chunks, fs)
  {
    hide Frames, Lines, HexText;
    r := out;
    var i := 0;
    NoFrames();
    assert chunks[..0] == [];
    while i < |chunks|
      invariant i <= |chunks| && r == out + Frames(chunks[..i])
    {
      FramesSnoc(chunks[..i], chunks[i]);
      assert chunks[..i + 1] == chunks[..i] + [chunks[i]];
      ghost var before := r;
      r := r + HexText(|chunks[i]|);
      r := r + CRLF;
      r := r + chunks[i];
      r := r + CRLF;
      assert r == before + Frame(chunks[i]);
      hide Frame;
      i := i + 1;
    }
    assert chunks[..i] == chunks;
    var mid := r;
    r := r + "0\r\n";
    var k := 0;
    assert fs[..0] == [];
    while k < |fs|
      invariant k <= |fs| && r == mid + "0\r\n" + Lines(fs[..k])
    {
      LinesSnoc(fs[..k], fs[k]);
      assert fs[..k + 1] == fs[..k] + [fs[k]];
      ghost var before := r;
      r := r + fs[k].name;
      r := r + ": ";
      r := r + fs[k].value;
      r := r + CRLF;
      assert r == before + Line(fs[k]);
      hide Line;
      k := k + 1;
    }
    assert fs[..k] == fs;
    r := r + CRLF;
    assert r == mid + Tail(fs);
  }

  lemma NoFrames()
    ensures Frames([]) == "" && Lines([]) == ""
  {
  }

  /** The size without serializing. */
  method WireSize(chunks: seq<string>, fs: seq<Field>) returns (total: nat)
    ensures total == |Wire(chunks, fs)|
  {
    hide Frames, Lines, HexText;
    total := 0;
    var i := 0;
    NoFrames();
    assert chunks[..0] == [];
    while i < |chunks|
      invariant i <= |chunks| && total == |Frames(chunks[..i])|
    {
      FramesSnoc(chunks[..i], chunks[i]);
      assert chunks[..i + 1] == chunks[..i] + [chunks[i]];
      total := total + |HexText(|chunks[i]|)| + 2;
      total := total + |chunks[i]| + 2;
      i := i + 1;
    }
    assert chunks[..i] == chunks;
    ghost var frames := total;
    total := total + 3;
    var k := 0;
    assert fs[..0] == [];
    while k < |fs|
      invariant k <= |fs| && total == frames + 3 + |Lines(fs[..k])|
    {
      LinesSnoc(fs[..k], fs[k]);
      assert fs[..k + 1] == fs[..k] + [fs[k]];
      total := total + |fs[k].name| + 2 + |fs[k].value| + 2;
      k := k + 1;
    }
    assert fs[..k] == fs;
    total := total + 2;
  }

  // ---------------------------------------------------------------- the decoder

  /** Where the first line ends. */
  function FindCrlf(s: string): (r: Option<nat>)
    ensures r.Some? ==> r.value + 2 <= |s|
  {
    if |s| < 2 then None
    else if s[0] == '\r' && s[1] == '\n' then Some(0)
    else
      var r := FindCrlf(s[1..]);
      if r.None? then None else Some(r.value + 1)
  }

  predicate IsSpace(c: char) {
    c == ' ' || c == '\t'
  }

  function TrimLeft(s: string): string {
    if s != "" && IsSpace(s[0]) then TrimLeft(s[1..]) else s
  }

  function TrimRight(s: string): string {
    if s != "" && IsSpace(s[|s| - 1]) then TrimRight(s[..|s| - 1]) else s
  }

  /** Without the optional whitespace around it. */
  function Trim(s: string): string {
    TrimRight(TrimLeft(s))
  }

  datatype Decoded = Decoded(data: string, fields: seq<Field>, rest: string)

  function ParseField(line: string): Option<Field> {
    var colon := FindChar(line, ':');
    if colon.None? || colon.value == 0 then None else Some(Field(line[..colon.value], Trim(line[colon.value + 1..])))
  }

  /** Field lines up to an empty line. */
  function DecodeFields(s: string): Option<Decoded>
    decreases |s|
  {
    var end := FindCrlf(s);
    if end.None? then None
    else if end.value == 0 then Some(Decoded("", [], s[2..]))
    else
      var f, more := ParseField(s[..end.value]), DecodeFields(s[end.value + 2..]);
      if f.None? || more.None? then None else Some(more.value.(fields := [f.value] + more.value.fields))
  }

  /** The size of a chunk; extensions after a semicolon are ignored. */
  function ParseSize(line: string): Option<nat> {
    var semi := FindChar(line, ';');
    HexValue(if semi.Some? then line[..semi.value] else line)
  }

  function Decode(s: string): Option<Decoded>
    decreases |s|
  {
    var end := FindCrlf(s);
    if end.None? then None
    else
      var size, rest := ParseSize(s[..end.value]), s[end.value + 2..];
      if size.None? then None
      else if size.value == 0 then DecodeFields(rest)
      else if size.value + 2 > |rest| || rest[size.value..size.value + 2] != CRLF then None
      else
        var more := Decode(rest[size.value + 2..]);
        if more.None? then None else Some(more.value.(data := rest[..size.value] + more.value.data))
  }

  // ---------------------------------------------------------------- round trips

  predicate Clean(s: string) {
    forall i :: 0 <= i < |s| ==> s[i] != '\r' && s[i] != '\n'
  }

  predicate CleanFields(fs: seq<Field>) {
    forall i :: 0 <= i < |fs| ==> Clean(fs[i].name) && Clean(fs[i].value)
  }

  /** A trailer that comes back as it was: a name without a colon, and a value without whitespace around it. */
  predicate Faithful(f: Field) {
    f.name != "" && (forall i :: 0 <= i < |f.name| ==> f.name[i] != ':') && f.value == Trim(f.value)
  }

  lemma {:induction false} FindCrlfIs(line: string, rest: string)
    requires Clean(line)
    ensures FindCrlf(line + CRLF + rest) == Some(|line|)
    ensures var s := line + CRLF + rest; s[..|line|] == line && s[|line| + 2..] == rest
  {
    var s := line + CRLF + rest;
    if line != "" {
      assert s[1..] == line[1..] + CRLF + rest;
      FindCrlfIs(line[1..], rest);
    }
  }

  lemma {:induction false} FindCharNot(s: string, c: char)
    requires forall i :: 0 <= i < |s| ==> s[i] != c
    ensures FindChar(s, c) == None
  {
    if s != "" {
      FindCharNot(s[1..], c);
    }
  }

  lemma {:induction false} FindCharFirst(s: string, c: char)
    ensures var r := FindChar(s, c); r.Some? ==> s[r.value] == c && forall i :: 0 <= i < r.value ==> s[i] != c
  {
    if s != "" && s[0] != c {
      FindCharFirst(s[1..], c);
      var r := FindChar(s, c);
      if r.Some? {
        forall i | 0 <= i < r.value ensures s[i] != c {
          if i > 0 {
            assert s[1..][i - 1] == s[i];
          }
        }
      }
    }
  }

  function LineText(f: Field): string {
    f.name + ": " + f.value
  }

  lemma LineAfterName(f: Field)
    ensures LineText(f)[..|f.name|] == f.name && LineText(f)[|f.name| + 1..] == " " + f.value
    ensures LineText(f) == f.name + [':'] + (" " + f.value) && Trim(" " + f.value) == Trim(f.value)
  {
    assert (" " + f.value)[1..] == f.value;
  }

  /** A field line is read back as the field exactly when the field is faithful. */
  lemma FieldRoundTripIff(f: Field)
    ensures ParseField(LineText(f)) == Some(f) <==> Faithful(f)
  {
    hide Trim;
    var line := LineText(f);
    LineAfterName(f);
    FindCharFirst(line, ':');
    if Faithful(f) {
      FindCharIs(f.name, ':', " " + f.value);
    }
    if ParseField(line) == Some(f) {
      var c := FindChar(line, ':').value;
      assert |line[..c]| == c == |f.name|;
      forall i | 0 <= i < |f.name| ensures f.name[i] != ':' {
        assert line[i] == f.name[i];
      }
    }
  }

  /** What the decoder makes of the trailers, if anything. */
  function ReadBack(fs: seq<Field>): Option<seq<Field>> {
    if fs == [] then Some([])
    else
      var f, more := ParseField(LineText(fs[0])), ReadBack(fs[1..]);
      if f.None? || more.None? then None else Some([f.value] + more.value)
  }

  lemma {:induction false} ReadBackIff(fs: seq<Field>)
    ensures ReadBack(fs) == Some(fs) <==> forall i :: 0 <= i < |fs| ==> Faithful(fs[i])
  {
    hide ParseField, Faithful;
    if fs != [] {
      FieldRoundTripIff(fs[0]);
      ReadBackIff(fs[1..]);
      assert fs == [fs[0]] + fs[1..];
      if forall i :: 0 <= i < |fs[1..]| ==> Faithful(fs[1..][i]) {
        assert forall i :: 1 <= i < |fs| ==> fs[i] == fs[1..][i - 1];
      }
      if forall i :: 0 <= i < |fs| ==> Faithful(fs[i]) {
        assert forall i :: 0 <= i < |fs[1..]| ==> fs[1..][i] == fs[i + 1];
      }
    }
  }

  lemma {:induction false} FieldsDecode(fs: seq<Field>, rest: string)
    requires CleanFields(fs)
    ensures DecodeFields(Lines(fs) + CRLF + rest) ==
      if ReadBack(fs).None? then None else Some(Decoded("", ReadBack(fs).value, rest))
    decreases |fs|
  {
    hide FindCrlf, ParseField;
    if fs == [] {
      FindCrlfIs("", rest);
      assert Lines(fs) + CRLF + rest == "" + CRLF + rest;
      assert (CRLF + rest)[2..] == rest;
    } else {
      var f, more := fs[0], Lines(fs[1..]) + CRLF + rest;
      LineClean(f);
      FieldLine(f, Lines(fs[1..]), rest);
      FindCrlfIs(LineText(f), more);
      FieldsDecode(fs[1..], rest);
    }
  }

  lemma FieldLine(f: Field, lines: string, rest: string)
    ensures (Line(f) + lines) + CRLF + rest == LineText(f) + CRLF + (lines + CRLF + rest)
  {
    var line := f.name + ": " + f.value;
    assert Line(f) == line + CRLF;
    assert (line + CRLF + lines) + CRLF + rest == line + CRLF + (lines + CRLF + rest);
  }

  lemma LineClean(f: Field)
    requires Clean(f.name) && Clean(f.value)
    ensures Clean(LineText(f)) && LineText(f) != ""
  {
  }

  lemma SizeRoundTrip(n: nat)
    ensures Clean(HexText(n)) && ParseSize(HexText(n)) == Some(n)
  {
    FindCharNot(HexText(n), ';');
    HexRoundTrip(n);
  }

  lemma ZeroSize()
    ensures Clean("0") && ParseSize("0") == Some(0)
  {
    assert HexText(0) == "0";
    SizeRoundTrip(0);
  }

  function Concat(chunks: seq<string>): string {
    if chunks == [] then "" else chunks[0] + Concat(chunks[1..])
  }

  /** What the decoder makes of a serialized body, whatever follows it on the connection. */
  lemma {:induction false} WireDecodes(chunks: seq<string>, fs: seq<Field>, rest: string)
    requires CleanFields(fs) && forall i :: 0 <= i < |chunks| ==> chunks[i] != ""
    ensures Decode(Wire(chunks, fs) + rest) ==
      if ReadBack(fs).None? then None else Some(Decoded(Concat(chunks), ReadBack(fs).value, rest))
    decreases |chunks|
  {
    hide FindCrlf, ParseSize, DecodeFields, HexText, Lines, CleanFields, ReadBack;
    var s := Wire(chunks, fs) + rest;
    if chunks == [] {
      ZeroSize();
      TailText(fs, rest);
      FindCrlfIs("0", Lines(fs) + CRLF + rest);
      FieldsDecode(fs, rest);
      assert s == Tail(fs) + rest;
    } else {
      var c, more := chunks[0], Wire(chunks[1..], fs) + rest;
      SizeRoundTrip(|c|);
      FrameText(c, Frames(chunks[1..]), Tail(fs), rest);
      FindCrlfIs(HexText(|c|), c + CRLF + more);
      ChunkText(c, more);
      WireDecodes(chunks[1..], fs, rest);
    }
  }

  /** The data and the trailers come back exactly when every trailer is faithful; without trailers, always. */
  lemma WireRoundTripIff(chunks: seq<string>, fs: seq<Field>, rest: string)
    requires CleanFields(fs) && forall i :: 0 <= i < |chunks| ==> chunks[i] != ""
    ensures Decode(Wire(chunks, fs) + rest) == Some(Decoded(Concat(chunks), fs, rest)) <==>
      forall i :: 0 <= i < |fs| ==> Faithful(fs[i])
  {
    hide Wire, Decode, ReadBack, Faithful, CleanFields, Concat;
    WireDecodes(chunks, fs, rest);
    ReadBackIff(fs);
  }

  /** The data always come back when the trailers can be read at all. */
  lemma DataRoundTrip(chunks: seq<string>, fs: seq<Field>, rest: string)
    requires CleanFields(fs) && forall i :: 0 <= i < |chunks| ==> chunks[i] != ""
    ensures var d := Decode(Wire(chunks, fs) + rest); d.Some? ==> d.value.data == Concat(chunks) && d.value.rest == rest
    ensures Decode(Wire(chunks, fs) + rest).Some? <==> ReadBack(fs).Some?
  {
    hide Wire, Decode, ReadBack, CleanFields, Concat;
    WireDecodes(chunks, fs, rest);
  }

  /** A colon in a name moves the border between name and value. */
  lemma ColonMoves(chunks: seq<string>, rest: string)
    requires forall i :: 0 <= i < |chunks| ==> chunks[i] != ""
    ensures var f := Field("a:b", "c");
      CleanFields([f]) && Decode(Wire(chunks, [f]) + rest) == Some(Decoded(Concat(chunks), [Field("a", "b: c")], rest))
  {
    hide Wire, Decode, Concat;
    var f, g := Field("a:b", "c"), Field("a", "b: c");
    assert CleanFields([f]);
    WireDecodes(chunks, [f], rest);
    ColonLine();
    hide ParseField;
    assert [f][1..] == [] && ReadBack([]) == Some([]);
    assert ReadBack([f]) == Some([g] + []) && [g] + [] == [g];
  }

  lemma ColonLine()
    ensures ParseField(LineText(Field("a:b", "c"))) == Some(Field("a", "b: c"))
  {
    var line := LineText(Field("a:b", "c"));
    assert line == "a" + [':'] + "b: c";
    FindCharIs("a", ':', "b: c");
    assert line[..1] == "a" && line[2..] == "b: c";
    assert Trim("b: c") == "b: c";
  }

  lemma TailText(fs: seq<Field>, rest: string)
    ensures Tail(fs) + rest == "0" + CRLF + (Lines(fs) + CRLF + rest)
  {
    hide Lines;
    assert "0\r\n" == "0" + CRLF;
  }

  lemma FrameText(c: string, frames: string, tail: string, rest: string)
    ensures ((Frame(c) + frames) + tail) + rest == HexText(|c|) + CRLF + (c + CRLF + ((frames + tail) + rest))
  {
    hide HexText;
    Regroup(Frame(c), frames, tail, rest);
    Regroup(HexText(|c|) + CRLF, c, CRLF, (frames + tail) + rest);
  }

  lemma Regroup(a: string, b: string, c: string, d: string)
    ensures ((a + b) + c) + d == a + ((b + c) + d)
  {
  }

  lemma ChunkText(c: string, more: string)
    ensures var r := c + CRLF + more; r[..|c|] == c && r[|c|..|c| + 2] == CRLF && r[|c| + 2..] == more
  {
  }

  // ---------------------------------------------------------------- the body as it is collected

  datatype Call = WriteCall(data: string) | EndCall(fields: seq<Field>)

  datatype Collected = Collected(chunks: seq<string>, fields: seq<Field>, finished: bool)

  function Apply(b: Collected, c: Call): Collected {
    if b.finished then b
    else
      match c
      case WriteCall(data) => if data == "" then b else b.(chunks := b.chunks + [data])
      case EndCall(fs) => b.(fields := fs, finished := true)
  }

  function Collect(calls: seq<Call>): Collected {
    if calls == [] then Collected([], [], false) else Apply(Collect(calls[..|calls| - 1]), calls[|calls| - 1])
  }

  /** What the calls mean: the data written before the first end, and the trailers given there. */
  function Meaning(calls: seq<Call>): Meant {
    if calls == [] then Meant("", [])
    else
      match calls[0]
      case EndCall(fs) => Meant("", fs)
      case WriteCall(data) =>
        var more := Meaning(calls[1..]);
        more.(data := data + more.data)
  }

  datatype Meant = Meant(data: string, fields: seq<Field>)

  class Body {
    var chunks: seq<string>
    var trailers: seq<Field>
    var finished: bool

    function State(): Collected
      reads this
    {
      Collected(chunks, trailers, finished)
    }

    constructor ()
      ensures State() == Collect([])
    {
      chunks, trailers, finished := [], [], false;
    }

    method Write(data: string)
      modifies this
      ensures State() == Apply(old(State()), WriteCall(data))
    {
      if finished || data == "" {
        return;
      }
      chunks := chunks + [data];
    }

    method End(fields: seq<Field>)
      modifies this
      ensures State() == Apply(old(State()), EndCall(fields))
    {
      if finished {
        return;
      }
      finished := true;
      trailers := fields;
    }
  }

  lemma {:induction false} ConcatSnoc(chunks: seq<string>, c: string)
    ensures Concat(chunks + [c]) == Concat(chunks) + c
  {
    if chunks == [] {
      assert chunks + [c] == [c] && [c][1..] == [];
    } else {
      assert (chunks + [c])[1..] == chunks[1..] + [c];
      ConcatSnoc(chunks[1..], c);
    }
  }

  predicate Ends(calls: seq<Call>) {
    exists i :: 0 <= i < |calls| && calls[i].EndCall?
  }

  lemma {:induction false} MeaningSnoc(calls: seq<Call>, c: Call)
    ensures Meaning(calls + [c]) ==
      if Ends(calls) then Meaning(calls)
      else if c.EndCall? then Meant(Meaning(calls).data, c.fields)
      else Meant(Meaning(calls).data + c.data, [])
    ensures !Ends(calls) ==> Meaning(calls).fields == []
  {
    if calls == [] {
      assert calls + [c] == [c] && [c][1..] == [];
    } else {
      var rest := calls[1..];
      assert (calls + [c])[1..] == rest + [c] && (calls + [c])[0] == calls[0];
      MeaningSnoc(rest, c);
      if calls[0].WriteCall? {
        EndsRest(calls);
        if c.WriteCall? {
          assert calls[0].data + (Meaning(rest).data + c.data) == (calls[0].data + Meaning(rest).data) + c.data;
        }
      } else {
        assert Ends(calls);
      }
    }
  }

  lemma EndsRest(calls: seq<Call>)
    requires calls != [] && calls[0].WriteCall?
    ensures Ends(calls) <==> Ends(calls[1..])
  {
    var rest := calls[1..];
    if Ends(calls) {
      var i :| 0 <= i < |calls| && calls[i].EndCall?;
      assert rest[i - 1].EndCall?;
    }
    if Ends(rest) {
      var i :| 0 <= i < |rest| && rest[i].EndCall?;
      assert calls[i + 1].EndCall?;
    }
  }

  lemma {:induction false} CollectMeans(calls: seq<Call>)
    ensures var b := Collect(calls);
      && Meant(Concat(b.chunks), b.fields) == Meaning(calls)
      && (b.finished <==> Ends(calls))
      && forall i :: 0 <= i < |b.chunks| ==> b.chunks[i] != ""
  {
    if calls != [] {
      var n := |calls| - 1;
      var init, c := calls[..n], calls[n];
      assert calls == init + [c];
      CollectMeans(init);
      MeaningSnoc(init, c);
      EndsSnoc(init, c);
      if c.WriteCall? {
        ConcatSnoc(Collect(init).chunks, c.data);
        if c.data == "" {
          assert Meaning(init).data + c.data == Meaning(init).data;
        }
      }
    }
  }

  lemma EndsSnoc(calls: seq<Call>, c: Call)
    ensures Ends(calls + [c]) <==> Ends(calls) || c.EndCall?
  {
    if Ends(calls) {
      var i :| 0 <= i < |calls| && calls[i].EndCall?;
      assert (calls + [c])[i].EndCall?;
    }
    if c.EndCall? {
      assert (calls + [c])[|calls|].EndCall?;
    }
  }

  /**
   For every sequence of calls with clean trailers: the decoder gets back what they mean exactly when the
   trailers are faithful.
   */
  lemma CallsRoundTripIff(calls: seq<Call>, rest: string)
    requires CleanFields(Meaning(calls).fields)
    ensures var b, m := Collect(calls), Meaning(calls);
      Decode(Wire(b.chunks, b.fields) + rest) == Some(Decoded(m.data, m.fields, rest)) <==>
      forall i :: 0 <= i < |m.fields| ==> Faithful(m.fields[i])
  {
    hide Wire, Decode, Faithful, CleanFields;
    CollectMeans(calls);
    WireRoundTripIff(Collect(calls).chunks, Collect(calls).fields, rest);
  }
}
