/**
 The incremental JSON writer, with its assertions compiled out: any sequence of calls,
 matched or not, appends to the text and never leaves a text that cannot be completed.
 */
module JsonWriter {
  import opened Base
  import opened JsonText

  const MAX_DEPTH := 32

  /** A container that is still open, with a name that waits for its value. */
  datatype Open = Open(isObject: bool, entries: seq<Entry>, key: Option<string>)

  /** What has been written, as a tree with a hole: the finished value, or the open containers from the outside in. */
  datatype Draft = Draft(root: Option<Json>, stack: seq<Open>)

  function Empty(): Draft { Draft(None, []) }

  function Top(d: Draft): Open
    requires d.stack != []
  {
    d.stack[|d.stack| - 1]
  }

  function Outer(stack: seq<Open>): seq<Open>
    requires stack != []
  {
    stack[..|stack| - 1]
  }

  function SetTop(d: Draft, f: Open): Draft
    requires d.stack != []
  {
    d.(stack := Outer(d.stack) + [f])
  }

  // ---------------------------------------------------------------- the calls, on drafts

  /** Whether a value may come next. */
  predicate Accepts(d: Draft) {
    if d.stack == [] then d.root.None? else Top(d).isObject ==> Top(d).key.Some?
  }

  function Filled(f: Open, v: Json): Open {
    Open(f.isObject, f.entries + [Entry(if f.isObject && f.key.Some? then f.key.value else "", v)], None)
  }

  function Put(d: Draft, v: Json): Draft {
    if !Accepts(d) then d
    else if d.stack == [] then d.(root := Some(v))
    else SetTop(d, Filled(Top(d), v))
  }

  /** A name without a value gets null. */
  function Settled(f: Open): Open {
    if f.isObject && f.key.Some? then Filled(f, Null) else f
  }

  function Keyed(d: Draft, name: string): Draft {
    if d.stack == [] || !Top(d).isObject then d
    else SetTop(d, Settled(Top(d)).(key := Some(name)))
  }

  function Begun(d: Draft, isObject: bool): Draft {
    if |d.stack| >= MAX_DEPTH || !Accepts(d) then d
    else d.(stack := d.stack + [Open(isObject, [], None)])
  }

  function Closed(f: Open): Json {
    Container(f.isObject, Settled(f).entries)
  }

  function Ended(d: Draft, isObject: bool): Draft {
    if d.stack == [] || Top(d).isObject != isObject then d
    else Put(d.(stack := Outer(d.stack)), Closed(Top(d)))
  }

  // ---------------------------------------------------------------- the text of a draft

  /** The text of an open container up to where it stands. */
  function Body(f: Open): string {
    Opening(f.isObject) + PrintAll(f.isObject, f.entries)
  }

  /** The text of an open container up to where its next value begins. */
  function Lead(f: Open): string {
    Body(f) + Comma(f.entries) + Label(f.isObject, if f.key.Some? then f.key.value else "")
  }

  function Leads(stack: seq<Open>): string {
    if stack == [] then "" else Leads(Outer(stack)) + Lead(stack[|stack| - 1])
  }

  function TopText(f: Open): string {
    if f.isObject && f.key.Some? then Lead(f) else Body(f)
  }

  function Render(d: Draft): string {
    if d.stack == [] then (if d.root.Some? then Print(d.root.value) else "")
    else Leads(Outer(d.stack)) + TopText(Top(d))
  }

  /** Every enclosing object has a name for the container inside it; names are for objects only. */
  ghost predicate Shaped(d: Draft) {
    && (d.stack != [] ==> d.root.None?)
    && |d.stack| <= MAX_DEPTH
    && (forall i :: 0 <= i < |d.stack| ==> (d.stack[i].key.Some? ==> d.stack[i].isObject))
    && (forall i :: 0 <= i < |d.stack| ==> AllWellFormed(d.stack[i].isObject, d.stack[i].entries))
    && (forall i :: 0 <= i < |d.stack| - 1 ==> (d.stack[i].isObject ==> d.stack[i].key.Some?))
    && (d.root.Some? ==> WellFormed(d.root.value))
  }

  lemma WellFormedSnoc(isObject: bool, es: seq<Entry>, e: Entry)
    requires AllWellFormed(isObject, es) && (isObject || e.name == "") && WellFormed(e.value)
    ensures AllWellFormed(isObject, es + [e])
  {
    hide WellFormed;
  }

  lemma WellFormedNull()
    ensures WellFormed(Null)
  {
  }

  lemma SettledShaped(f: Open)
    requires AllWellFormed(f.isObject, f.entries)
    ensures AllWellFormed(f.isObject, Settled(f).entries)
  {
    hide AllWellFormed, WellFormed;
    WellFormedNull();
    if f.isObject && f.key.Some? {
      WellFormedSnoc(f.isObject, f.entries, Entry(f.key.value, Null));
    }
  }

  lemma PutShaped(d: Draft, v: Json)
    requires Shaped(d) && WellFormed(v)
    ensures Shaped(Put(d, v))
  {
    hide WellFormed, AllWellFormed;
    if Accepts(d) && d.stack != [] {
      var f := Top(d);
      WellFormedSnoc(f.isObject, f.entries, Entry(if f.isObject && f.key.Some? then f.key.value else "", v));
    }
  }

  lemma KeyedShaped(d: Draft, name: string)
    requires Shaped(d)
    ensures Shaped(Keyed(d, name))
  {
    hide WellFormed, AllWellFormed;
    if d.stack != [] {
      SettledShaped(Top(d));
    }
  }

  lemma NoEntries(isObject: bool)
    ensures AllWellFormed(isObject, [])
  {
  }

  lemma BegunShaped(d: Draft, isObject: bool)
    requires Shaped(d)
    ensures Shaped(Begun(d, isObject))
  {
    hide WellFormed, AllWellFormed;
    NoEntries(isObject);
  }

  lemma ClosedShaped(f: Open)
    requires AllWellFormed(f.isObject, f.entries)
    ensures WellFormed(Closed(f))
  {
    hide AllWellFormed;
    SettledShaped(f);
  }

  lemma EndedShaped(d: Draft, isObject: bool)
    requires Shaped(d)
    ensures Shaped(Ended(d, isObject))
  {
    hide WellFormed, AllWellFormed, Put;
    if d.stack != [] && Top(d).isObject == isObject {
      ClosedShaped(Top(d));
      PutShaped(d.(stack := Outer(d.stack)), Closed(Top(d)));
    }
  }

  // ---------------------------------------------------------------- how each call extends the text

  /** The comma that a value needs in front of it. */
  function Separator(d: Draft): string {
    if d.stack != [] && !Top(d).isObject then Comma(Top(d).entries) else ""
  }

  lemma BodyFilled(f: Open, v: Json)
    requires f.isObject ==> f.key.Some?
    ensures Body(Filled(f, v)) == Lead(f) + Print(v)
  {
    hide Print, PrintAll, Label;
    PrintAllSnoc(f.isObject, f.entries, Entry(if f.isObject && f.key.Some? then f.key.value else "", v));
    LabelOfArray("");
    LabelOfArray(if f.key.Some? then f.key.value else "");
  }

  lemma LabelOfArray(name: string)
    ensures Label(false, name) == ""
  {
  }

  lemma LeadIs(f: Open)
    requires f.key.Some? ==> f.isObject
    requires f.isObject ==> f.key.Some?
    ensures Lead(f) == TopText(f) + if f.isObject then "" else Comma(f.entries)
  {
    hide Body;
    LabelOfArray("");
  }

  lemma PutRender(d: Draft, v: Json)
    requires Shaped(d) && Accepts(d)
    ensures Render(Put(d, v)) == Render(d) + Separator(d) + Print(v)
  {
    hide Shaped, Leads, Lead, Body, Print, Comma;
    if d.stack != [] {
      ShapedTop(d);
      var f := Top(d);
      BodyFilled(f, v);
      LeadIs(f);
      assert Outer(Put(d, v).stack) == Outer(d.stack);
    }
  }

  lemma ShapedTop(d: Draft)
    requires Shaped(d) && d.stack != []
    ensures (Top(d).key.Some? ==> Top(d).isObject) && d.root.None?
  {
  }

  lemma LeadKeyed(f: Open, name: string)
    requires f.isObject && f.key.None?
    ensures Lead(f.(key := Some(name))) == Body(f) + Comma(f.entries) + Label(true, name)
  {
  }

  lemma KeyedRender(d: Draft, name: string)
    requires Shaped(d) && d.stack != [] && Top(d).isObject
    ensures var f := Top(d);
      Render(Keyed(d, name)) ==
      Render(d) + (if f.key.Some? then "null" else "") + Comma(Settled(f).entries) + Label(true, name)
  {
    hide Shaped, Leads, Lead, Body, Comma, Label, PrintAll;
    var f := Top(d);
    var g := Settled(f);
    if f.key.Some? {
      BodyFilled(f, Null);
    }
    LeadKeyed(g, name);
    assert Outer(Keyed(d, name).stack) == Outer(d.stack);
  }

  lemma BodyNew(isObject: bool)
    ensures Body(Open(isObject, [], None)) == Opening(isObject)
  {
  }

  lemma LeadsTop(d: Draft)
    requires Shaped(d) && Accepts(d)
    ensures Leads(d.stack) == Render(d) + Separator(d)
  {
    hide Shaped, Lead, Comma, TopText;
    if d.stack != [] {
      ShapedTop(d);
      LeadIs(Top(d));
    } else {
      assert d.root.None?;
    }
  }

  lemma BegunRender(d: Draft, isObject: bool)
    requires Shaped(d) && Accepts(d) && |d.stack| < MAX_DEPTH
    ensures Render(Begun(d, isObject)) == Render(d) + Separator(d) + Opening(isObject)
  {
    hide Shaped, Leads, Body, Separator;
    LeadsTop(d);
    BodyNew(isObject);
    assert Outer(Begun(d, isObject).stack) == d.stack;
  }

  lemma PrintClosed(f: Open)
    requires f.key.Some? ==> f.isObject
    ensures Print(Closed(f)) == TopText(f) + (if f.key.Some? then "null" else "") + Closing(f.isObject)
  {
    hide Body, Lead, PrintAll;
    if f.key.Some? {
      BodyFilled(f, Null);
      BodyIs(Filled(f, Null));
    } else {
      BodyIs(f);
    }
  }

  lemma BodyIs(f: Open)
    ensures Body(f) == Opening(f.isObject) + PrintAll(f.isObject, f.entries)
  {
  }

  lemma OuterShaped(d: Draft)
    requires Shaped(d) && d.stack != []
    ensures Shaped(d.(stack := Outer(d.stack))) && Accepts(d.(stack := Outer(d.stack)))
  {
    hide AllWellFormed;
  }

  lemma EndedRender(d: Draft, isObject: bool)
    requires Shaped(d) && d.stack != [] && Top(d).isObject == isObject
    ensures Render(Ended(d, isObject)) == Render(d) + (if Top(d).key.Some? then "null" else "") + Closing(isObject)
  {
    hide Shaped, Leads, Put, Print, TopText, Separator, Closed;
    var out, f := d.(stack := Outer(d.stack)), Top(d);
    OuterShaped(d);
    ShapedTop(d);
    PutRender(out, Closed(f));
    PrintClosed(f);
    LeadsTop(out);
    assert Render(out) + Separator(out) == Leads(Outer(d.stack));
    assert Render(d) == Leads(Outer(d.stack)) + TopText(f);
  }

  // ---------------------------------------------------------------- every text can be completed

  /** The tree that results from putting `v` where the open containers wait for a value and closing them all. */
  function Plug(stack: seq<Open>, v: Json): Json {
    if stack == [] then v
    else Plug(Outer(stack), Container(stack[|stack| - 1].isObject, Filled(stack[|stack| - 1], v).entries))
  }

  /** One way to complete a draft: null for what is missing, and all containers closed. */
  function Completion(d: Draft): Json {
    if d.stack == [] then (if d.root.Some? then d.root.value else Null)
    else Plug(Outer(d.stack), Closed(Top(d)))
  }

  lemma PrintFilled(f: Open, v: Json)
    requires f.isObject ==> f.key.Some?
    ensures Print(Container(f.isObject, Filled(f, v).entries)) == Lead(f) + Print(v) + Closing(f.isObject)
  {
    hide Lead, Body, PrintAll;
    BodyFilled(f, v);
    BodyIs(Filled(f, v));
  }

  lemma {:induction false} PlugExtends(stack: seq<Open>, v: Json)
    requires forall i :: 0 <= i < |stack| ==> (stack[i].isObject ==> stack[i].key.Some?)
    requires forall i :: 0 <= i < |stack| ==> AllWellFormed(stack[i].isObject, stack[i].entries)
    requires WellFormed(v)
    ensures Leads(stack) + Print(v) <= Print(Plug(stack, v)) && WellFormed(Plug(stack, v))
  {
    hide Print, Lead, AllWellFormed, Filled;
    if stack != [] {
      var f := stack[|stack| - 1];
      var c := Container(f.isObject, Filled(f, v).entries);
      FilledShaped(f, v);
      PlugExtends(Outer(stack), c);
      PrintFilled(f, v);
      Extended(Leads(Outer(stack)), Lead(f), Print(v), Closing(f.isObject), Print(Plug(stack, v)));
    }
  }

  lemma FilledShaped(f: Open, v: Json)
    requires AllWellFormed(f.isObject, f.entries) && WellFormed(v)
    ensures AllWellFormed(f.isObject, Filled(f, v).entries)
  {
    hide AllWellFormed, WellFormed;
    WellFormedSnoc(f.isObject, f.entries, Entry(if f.isObject && f.key.Some? then f.key.value else "", v));
  }

  lemma Extended(a: string, b: string, c: string, d: string, whole: string)
    requires a + (b + c + d) <= whole
    ensures (a + b) + c <= whole
  {
    assert a + (b + c + d) == ((a + b) + c) + d;
  }

  /** The text of every draft is the beginning of the text of a well-formed tree, which parses back to that tree. */
  lemma AlwaysViable(d: Draft)
    requires Shaped(d)
    ensures WellFormed(Completion(d)) && Render(d) <= Print(Completion(d))
    ensures ParseValue(Print(Completion(d))) == Some(Parsed(Completion(d), ""))
  {
    ViablePrefix(d);
    hide Shaped, Completion, Render;
    RoundTrip(Completion(d), "");
    assert Print(Completion(d)) + "" == Print(Completion(d));
  }

  lemma ViablePrefix(d: Draft)
    requires Shaped(d)
    ensures WellFormed(Completion(d)) && Render(d) <= Print(Completion(d))
  {
    hide Leads, TopText, Closed, Print, AllWellFormed, Plug;
    if d.stack != [] {
      var f := Top(d);
      ClosedShaped(f);
      PlugExtends(Outer(d.stack), Closed(f));
      PrintClosed(f);
      var filler := if f.key.Some? then "null" else "";
      Extended(Leads(Outer(d.stack)), TopText(f), filler, Closing(f.isObject), Print(Completion(d)));
    }
  }

  /** Once something is written and nothing is open, the text is exactly one JSON value. */
  lemma CompleteIsOneValue(d: Draft)
    requires Shaped(d) && d.stack == [] && Render(d) != ""
    ensures d.root.Some? && Render(d) == Print(d.root.value) && ParseValue(Render(d)) == Some(Parsed(d.root.value, ""))
  {
    hide WellFormed, Print;
    RoundTrip(d.root.value, "");
    assert Render(d) + "" == Render(d);
  }

  // ---------------------------------------------------------------- the writer

  datatype Frame = Frame(isObject: bool, empty: bool)

  predicate IsScalar(v: Json) {
    !v.Container?
  }

  function Depth(t: Json): nat
    decreases t
  {
    match t
    case Container(_, es) => 1 + DepthAll(es)
    case _ => 0
  }

  function DepthAll(es: seq<Entry>): nat
    decreases es
  {
    if es == [] then 0 else Max(Depth(es[0].value), DepthAll(es[1..]))
  }

  lemma {:induction false} DepthOf(es: seq<Entry>, i: nat)
    requires i < |es|
    ensures Depth(es[i].value) <= DepthAll(es)
  {
    if i > 0 {
      DepthOf(es[1..], i - 1);
    }
  }

  method AppendScalar(sink: string, v: Json) returns (r: string)
    requires IsScalar(v)
    ensures r == sink + Print(v)
  {
    hide Quoted;
    match v {
      case Null => r := sink + "null";
      case Bool(b) => if b { r := sink + "true"; } else { r := sink + "false"; }
      case Num(text) => r := sink + text;
      case Str(s) => r := AppendQuoted(sink, s);
    }
  }

  class Writer {
    var out: string
    const frames: array<Frame>
    var depth: nat
    var pendingKey: bool
    var rootWritten: bool
    ghost var d: Draft

    ghost predicate Valid()
      reads this, frames
    {
      && Shaped(d) && out == Render(d) && frames.Length == MAX_DEPTH && depth == |d.stack| <= MAX_DEPTH
      && Matches()
    }

    ghost predicate Matches()
      requires frames.Length == MAX_DEPTH && depth == |d.stack| <= MAX_DEPTH
      reads this, frames
    {
      && (forall i :: 0 <= i < depth ==> frames[i].isObject == d.stack[i].isObject)
      && (forall i :: 0 <= i < depth - 1 ==> !frames[i].empty)
      && (depth > 0 ==> (frames[depth - 1].empty <==> Top(d).entries == [] && Top(d).key.None?))
      && (pendingKey <==> depth > 0 && Top(d).key.Some?)
      && (rootWritten <==> d.root.Some? || depth > 0)
    }

    constructor ()
      ensures Valid() && fresh(frames) && d == Empty() && out == ""
    {
      frames := new Frame[MAX_DEPTH](i => Frame(false, false));
      out, depth, pendingKey, rootWritten, d := "", 0, false, false, Empty();
    }

    predicate IsComplete()
      reads this
    {
      depth == 0 && !pendingKey
    }

    /** A comma if one is due; false when no value may come here. */
    method BeforeValue() returns (ok: bool)
      requires Valid()
      modifies this`out, this`pendingKey, this`rootWritten, frames
      ensures ok == Accepts(d) && out == old(out) + (if ok then Separator(d) else "")
      ensures !ok ==> Matches()
      ensures ok ==> !pendingKey && rootWritten
      ensures forall i :: 0 <= i < depth ==> frames[i].isObject == d.stack[i].isObject
      ensures ok ==> forall i :: 0 <= i < depth ==> !frames[i].empty
    {
      hide Shaped, Render;
      if pendingKey {
        pendingKey := false;
        PendingFacts(d);
        return true;
      }
      if depth == 0 {
        if rootWritten {
          return false;
        }
        rootWritten := true;
        return true;
      }
      var frame := frames[depth - 1];
      if frame.isObject {
        return false;
      }
      if !frame.empty {
        out := out + ",";
      }
      ArrayFacts(d);
      frames[depth - 1] := Frame(frame.isObject, false);
      return true;
    }

    /** `value(...)`: the text of a scalar. */
    method Value(v: Json)
      requires Valid() && IsScalar(v) && WellFormed(v)
      modifies this, frames
      ensures Valid() && d == Put(old(d), v)
    {
      hide Shaped, Render, WellFormed, Separator, Print;
      var ok := BeforeValue();
      PutShaped(d, v);
      if !ok {
        return;
      }
      PutRender(d, v);
      out := AppendScalar(out, v);
      d := Put(d, v);
    }

    method ValueInteger(n: int)
      requires Valid()
      modifies this, frames
      ensures Valid() && d == Put(old(d), Num(Decimal(n)))
    {
      DecimalRoundTrip(n);
      Value(Num(Decimal(n)));
    }

    /** The text with a key added: a null for a forgotten value, a comma if one is due, and the label. */
    method KeyText(name: string) returns (text: string)
      requires Valid() && depth > 0 && frames[depth - 1].isObject
      ensures text == Render(Keyed(d, name))
    {
      hide Shaped, Render, Settled, Label, Filled;
      KeyedRender(d, name);
      SettledIs(Top(d));
      text := out;
      if pendingKey {
        text := text + "null";
      }
      if !frames[depth - 1].empty {
        text := text + ",";
      }
      text := AppendLabel(text, name);
    }

    method Key(name: string)
      requires Valid()
      modifies this, frames
      ensures Valid() && d == Keyed(old(d), name)
    {
      hide Shaped, Render, Settled, Label, Filled;
      KeyedShaped(d, name);
      if depth == 0 || !frames[depth - 1].isObject {
        return;
      }
      SettledIs(Top(d));
      out := KeyText(name);
      frames[depth - 1] := Frame(frames[depth - 1].isObject, false);
      pendingKey := true;
      d := Keyed(d, name);
    }

    method BeginContainer(isObject: bool)
      requires Valid()
      modifies this, frames
      ensures Valid() && d == Begun(old(d), isObject)
    {
      hide Shaped, Render, Separator;
      BegunShaped(d, isObject);
      if depth >= MAX_DEPTH {
        return;
      }
      var ok := BeforeValue();
      if !ok {
        return;
      }
      BegunRender(d, isObject);
      out := out + (if isObject then "{" else "[");
      frames[depth] := Frame(isObject, true);
      depth := depth + 1;
      d := Begun(d, isObject);
    }

    method EndContainer(isObject: bool)
      requires Valid()
      modifies this, frames
      ensures Valid() && d == Ended(old(d), isObject)
    {
      hide Shaped, Render;
      EndedShaped(d, isObject);
      if depth == 0 || frames[depth - 1].isObject != isObject {
        return;
      }
      EndedRender(d, isObject);
      ShapedTop(d);
      EndedTop(d, isObject);
      if isObject && pendingKey {
        out := out + "null";
        pendingKey := false;
      }
      out := out + (if isObject then "}" else "]");
      depth := depth - 1;
      d := Ended(d, isObject);
    }
  }

  lemma PendingFacts(d: Draft)
    requires Shaped(d) && d.stack != [] && Top(d).key.Some?
    ensures Top(d).isObject && d.root.None?
  {
  }

  lemma ArrayFacts(d: Draft)
    requires Shaped(d) && d.stack != [] && !Top(d).isObject
    ensures Top(d).key.None?
  {
  }

  lemma SettledIs(f: Open)
    ensures Settled(f).isObject == f.isObject
    ensures (Settled(f).entries == [] <==> f.entries == [] && !(f.isObject && f.key.Some?))
  {
  }

  lemma EndedTop(d: Draft, isObject: bool)
    requires Shaped(d) && d.stack != [] && Top(d).isObject == isObject
    ensures var e := Ended(d, isObject);
      && |e.stack| == |d.stack| - 1 && (forall i :: 0 <= i < |e.stack| ==> e.stack[i].isObject == d.stack[i].isObject)
      && (e.stack != [] ==> Top(e).entries != [] && Top(e).key.None? && e.root.None?)
      && (e.stack == [] ==> e.root.Some?)
  {
    hide AllWellFormed, Closed;
    OuterShaped(d);
  }

  // ---------------------------------------------------------------- all call sequences, and walking a tree

  datatype Call = KeyCall(name: string) | ValueCall(v: Json) | BeginCall(isObject: bool) | EndCall(isObject: bool)

  /** A value is a scalar with a valid text. */
  predicate Sensible(c: Call) {
    c.ValueCall? ==> IsScalar(c.v) && WellFormed(c.v)
  }

  /** The draft after a sequence of calls, from an empty text. */
  function After(calls: seq<Call>): Draft {
    if calls == [] then Empty()
    else
      var d := After(calls[..|calls| - 1]);
      match calls[|calls| - 1]
      case KeyCall(name) => Keyed(d, name)
      case ValueCall(v) => Put(d, v)
      case BeginCall(isObject) => Begun(d, isObject)
      case EndCall(isObject) => Ended(d, isObject)
  }

  lemma {:induction false} AfterShaped(calls: seq<Call>)
    requires forall i :: 0 <= i < |calls| ==> Sensible(calls[i])
    ensures Shaped(After(calls))
  {
    hide Shaped, WellFormed, Put, Keyed, Begun, Ended;
    if calls == [] {
      assert Shaped(Empty()) by {
        EmptyShaped();
      }
    } else {
      var n := |calls| - 1;
      assert Sensible(calls[n]);
      AfterShaped(calls[..n]);
      var d := After(calls[..n]);
      match calls[n]
      case KeyCall(name) => KeyedShaped(d, name);
      case ValueCall(v) => PutShaped(d, v);
      case BeginCall(isObject) => BegunShaped(d, isObject);
      case EndCall(isObject) => EndedShaped(d, isObject);
    }
  }

  lemma EmptyShaped()
    ensures Shaped(Empty())
  {
  }

  /**
   After any calls, matched or not, the text can be completed to a JSON value, and is one as soon as something is
   written and nothing is open.
   */
  lemma EveryCallSequence(calls: seq<Call>)
    requires forall i :: 0 <= i < |calls| ==> Sensible(calls[i])
    ensures var d := After(calls);
      && Render(d) <= Print(Completion(d)) && ParseValue(Print(Completion(d))) == Some(Parsed(Completion(d), ""))
      && (d.stack == [] && Render(d) != "" ==> d.root.Some? && ParseValue(Render(d)) == Some(Parsed(d.root.value, "")))
  {
    hide Render, Print, ParseValue, Completion, Shaped, After;
    AfterShaped(calls);
    var d := After(calls);
    AlwaysViable(d);
    if d.stack == [] && Render(d) != "" {
      CompleteIsOneValue(d);
    }
  }

  lemma AfterNext(calls: seq<Call>, i: nat)
    requires i < |calls|
    ensures var d := After(calls[..i]);
      After(calls[..i + 1]) ==
      match calls[i]
      case KeyCall(name) => Keyed(d, name)
      case ValueCall(v) => Put(d, v)
      case BeginCall(isObject) => Begun(d, isObject)
      case EndCall(isObject) => Ended(d, isObject)
  {
    hide Keyed, Put, Begun, Ended;
    assert calls[..i + 1][..i] == calls[..i];
  }

  /**
   Any calls on a writer: its text can always be completed to a JSON value, and is exactly one when it says that
   it is complete and is not empty.
   */
  method Perform(calls: seq<Call>) returns (w: Writer)
    requires forall i :: 0 <= i < |calls| ==> Sensible(calls[i])
    ensures fresh(w) && w.Valid() && w.d == After(calls)
    ensures w.out <= Print(Completion(w.d)) && ParseValue(Print(Completion(w.d))) == Some(Parsed(Completion(w.d), ""))
    ensures w.IsComplete() && w.out != "" ==> w.d.root.Some? && ParseValue(w.out) == Some(Parsed(w.d.root.value, ""))
  {
    hide Shaped, Render, Keyed, Put, Begun, Ended, Completion, Print, ParseValue, WellFormed, After;
    w := new Writer();
    AfterNone();
    var i := 0;
    assert calls[..0] == [];
    while i < |calls|
      invariant i <= |calls| && fresh(w) && fresh(w.frames) && w.Valid() && w.d == After(calls[..i])
    {
      AfterNext(calls, i);
      assert Sensible(calls[i]);
      match calls[i] {
        case KeyCall(name) => w.Key(name);
        case ValueCall(v) => w.Value(v);
        case BeginCall(isObject) => w.BeginContainer(isObject);
        case EndCall(isObject) => w.EndContainer(isObject);
      }
      i := i + 1;
    }
    assert calls[..i] == calls;
    EveryCallSequence(calls);
  }

  lemma AfterNone()
    ensures After([]) == Empty()
  {
  }

  lemma WalkedEntry(d: Draft, isObject: bool, es: seq<Entry>, i: nat)
    requires i < |es| && AllWellFormed(isObject, es)
    ensures var f := d.(stack := d.stack + [Open(isObject, es[..i], None)]);
      var g := if isObject then Keyed(f, es[i].name) else f;
      && Accepts(g) && |g.stack| == |d.stack| + 1
      && Put(g, es[i].value) == d.(stack := d.stack + [Open(isObject, es[..i + 1], None)])
  {
    hide WellFormed;
    assert es[..i] + [es[i]] == es[..i + 1];
    var f := d.(stack := d.stack + [Open(isObject, es[..i], None)]);
    assert Outer(f.stack) == d.stack;
    var g := if isObject then Keyed(f, es[i].name) else f;
    assert Outer(g.stack) == d.stack;
    assert Filled(Top(g), es[i].value) == Open(isObject, es[..i + 1], None);
  }

  lemma WalkedAll(d: Draft, isObject: bool, es: seq<Entry>)
    ensures Ended(d.(stack := d.stack + [Open(isObject, es, None)]), isObject) == Put(d, Container(isObject, es))
  {
    var f := d.(stack := d.stack + [Open(isObject, es, None)]);
    assert Outer(f.stack) == d.stack;
  }

  /** Walks a tree that fits into the depth that is left. */
  method WriteTree(w: Writer, t: Json)
    requires w.Valid() && Accepts(w.d) && |w.d.stack| + Depth(t) <= MAX_DEPTH && WellFormed(t)
    modifies w, w.frames
    ensures w.Valid() && w.d == Put(old(w.d), t)
    decreases t
  {
    hide Shaped, Render, Put, Keyed, Ended;
    if !t.Container? {
      w.Value(t);
      return;
    }
    ghost var d := w.d;
    w.BeginContainer(t.isObject);
    var i := 0;
    assert t.entries[..0] == [];
    while i < |t.entries|
      invariant i <= |t.entries| && w.Valid() && w.d == d.(stack := d.stack + [Open(t.isObject, t.entries[..i], None)])
    {
      var e := t.entries[i];
      DepthOf(t.entries, i);
      WalkedEntry(d, t.isObject, t.entries, i);
      if t.isObject {
        w.Key(e.name);
      }
      WriteTree(w, e.value);
      i := i + 1;
    }
    assert t.entries[..i] == t.entries;
    WalkedAll(d, t.isObject, t.entries);
    w.EndContainer(t.isObject);
  }

  /** A tree nested at most 32 deep is written as a text that parses back to it. */
  method WriteDocument(t: Json) returns (out: string)
    requires Depth(t) <= MAX_DEPTH && WellFormed(t)
    ensures out == Print(t) && ParseValue(out) == Some(Parsed(t, ""))
  {
    hide Depth, WellFormed, Print, ParseValue;
    var w := new Writer();
    WriteTree(w, t);
    RoundTrip(t, "");
    assert Print(t) + "" == Print(t);
    out := w.out;
  }
}
