/**
 What an HTTP/1 connection is for: requests are taken from the front of the byte stream
 one after another, and each is answered before the next.

 The parser, the chunk decoder and the application are outside. The first two are
 functions with the contract stated in `Obeys`; the application decides, from the number
 of the request and its head, whether the body is read, and from the outcome of that
 what the answer is.
 */
module Http1Reference {
  import opened Base

  /** Bytes are written as characters. */
  type Bytes = seq<char>

  const CONTINUE: Bytes := "HTTP/1.1 100 Continue\r\n\r\n"

  datatype Framing = NoBody | Length(n: nat) | Chunked

  /**
   What the head of a request decides before its body is read: a refusal, a hand-over of the socket, or the
   framing of the body.
   */
  datatype Head = Head(
    reject: Option<Bytes>,
    takeover: bool,
    framing: Framing,
    wantsContinue: bool,
    keepAlive: bool,
    isHead: bool)

  datatype Fed = Fed(state: nat, out: Bytes, ret: int)

  datatype Library = Library(parse: Bytes -> int, head: Bytes -> Head, feed: (nat, Bytes) -> Fed)

  ghost predicate ParserObeys(lib: Library) {
    && (forall b :: lib.parse(b) == -1 || lib.parse(b) == -2 || 0 < lib.parse(b) <= |b|)
    && (forall b, x :: lib.parse(b) > 0 ==> lib.parse(b + x) == lib.parse(b))
    && lib.parse([]) == -2
  }

  /** The same end, with more bytes behind it. */
  function Longer(f: Fed, n: nat): Fed {
    f.(ret := f.ret + n)
  }

  /** What two feeds in a row have produced. */
  function After(f: Fed, g: Fed): Fed {
    g.(out := f.out + g.out)
  }

  /** -2: everything was consumed, feed more; -1: malformed, for good; otherwise the last `ret` bytes were left. */
  ghost predicate DecoderObeys(lib: Library) {
    && (forall s, b :: lib.feed(s, b).ret == -1 || lib.feed(s, b).ret == -2 || 0 <= lib.feed(s, b).ret <= |b|)
    && (forall s, b, x :: lib.feed(s, b).ret >= 0 ==> lib.feed(s, b + x) == Longer(lib.feed(s, b), |x|))
    && (forall s, b, x :: lib.feed(s, b).ret == -2 ==>
          lib.feed(s, b + x) == After(lib.feed(s, b), lib.feed(lib.feed(s, b).state, x)))
    && (forall s, b, x :: lib.feed(s, b).ret == -1 ==> lib.feed(s, b + x).ret == -1)
  }

  ghost predicate Obeys(lib: Library) {
    ParserObeys(lib) && DecoderObeys(lib) && lib.feed(0, []) == Fed(0, [], -2)
  }

  /** A small library that meets the contract: heads are one character, and a full stop ends a chunked body. */
  function Feed(b: Bytes): Fed {
    if b == [] then Fed(0, [], -2)
    else if b[0] == '.' then Fed(0, [], |b| - 1)
    else
      var more := Feed(b[1..]);
      more.(out := [b[0]] + more.out)
  }

  function Small(): Library {
    Library(b => if b == [] then -2 else 1,
            h => Head(None, false, if h == "c" then Chunked else NoBody, false, true, false),
            (s, b) => Feed(b))
  }

  lemma {:induction false} FeedJoins(b: Bytes, x: Bytes)
    ensures Feed(b).state == 0 && -2 <= Feed(b).ret <= |b| && Feed(b).ret != -1
    ensures Feed(b).ret >= 0 ==> Feed(b + x) == Feed(b).(ret := Feed(b).ret + |x|)
    ensures Feed(b).ret == -2 ==> Feed(b + x) == Feed(x).(out := Feed(b).out + Feed(x).out)
  {
    if b == [] {
      assert b + x == x && [] + Feed(x).out == Feed(x).out;
    } else {
      assert (b + x)[1..] == b[1..] + x;
      FeedJoins(b[1..], x);
      if Feed(b).ret == -2 {
        assert [b[0]] + (Feed(b[1..]).out + Feed(x).out) == ([b[0]] + Feed(b[1..]).out) + Feed(x).out;
      }
    }
  }

  lemma SmallDecodes()
    ensures DecoderObeys(Small())
  {
    var lib := Small();
    forall s: nat, b: Bytes ensures lib.feed(s, b) == Feed(b) {
    }
    hide Small;
    forall s, b, x
      ensures lib.feed(s, b).ret >= 0 ==> lib.feed(s, b + x) == Longer(lib.feed(s, b), |x|)
      ensures lib.feed(s, b).ret == -2 ==>
        lib.feed(s, b + x) == After(lib.feed(s, b), lib.feed(lib.feed(s, b).state, x))
      ensures lib.feed(s, b).ret == -1 ==> lib.feed(s, b + x).ret == -1
    {
      FeedJoins(b, x);
    }
    forall s, b ensures lib.feed(s, b).ret == -2 || 0 <= lib.feed(s, b).ret <= |b| {
      FeedJoins(b, []);
    }
  }

  /** The contract can be met. */
  lemma ObeysIsPossible()
    ensures Obeys(Small())
  {
    hide DecoderObeys;
    SmallDecodes();
  }

  // ---------------------------------------------------------------- requests, answers, the application

  datatype Kind = Plain | File | Streamed

  datatype Response = Response(head: Bytes, body: Bytes, kind: Kind)

  /** Why a body could not be read: more than the limit, not well formed, or cut off. */
  datatype Flaw = Oversize | Malformed | Truncated

  /**
   What became of the body: the application did not ask for it, its announced length is over the limit, it was
   read, or it broke after `size` bytes of the request.
   */
  datatype Outcome = Untouched | Announced | Complete(body: Bytes) | Broken(size: nat, flaw: Flaw)

  /** What the application gets to know of that. */
  datatype Reading = NotAsked | TooLong | Whole(body: Bytes) | Failed(flaw: Flaw)

  function Seen(o: Outcome): Reading {
    match o
    case Untouched => NotAsked
    case Announced => TooLong
    case Complete(body) => Whole(body)
    case Broken(_, flaw) => Failed(flaw)
  }

  datatype Refusal = BadRequest | HeadTooLarge

  datatype App = App(
    takesBody: (nat, Bytes) -> bool,
    answer: (nat, Bytes, Reading) -> Response,
    draining: nat -> bool,
    refusal: Refusal -> Bytes)

  datatype World = World(lib: Library, maxHeader: nat, maxBody: nat, app: App)

  /** One request with its answer. */
  datatype Exchange = Exchange(head: Bytes, outcome: Outcome, interim: bool, isHead: bool, response: Response)

  function Wire(r: Response, isHead: bool): Bytes {
    r.head + if isHead then [] else r.body
  }

  function Output(x: Exchange): Bytes {
    (if x.interim then CONTINUE else []) + Wire(x.response, x.isHead)
  }

  /** The answers, one after another. */
  function Outputs(xs: seq<Exchange>): Bytes {
    if xs == [] then [] else Outputs(xs[..|xs| - 1]) + Output(xs[|xs| - 1])
  }

  lemma OutputsNext(xs: seq<Exchange>, x: Exchange)
    ensures Outputs(xs + [x]) == Outputs(xs) + (if x.interim then CONTINUE else []) + Wire(x.response, x.isHead)
  {
    assert (xs + [x])[..|xs|] == xs;
  }

  // ---------------------------------------------------------------- one request at the front of a stream

  datatype Taken = Taken(size: nat, head: Bytes, body: Bytes)

  /** The first request of a byte stream, with its whole body. */
  function Take(lib: Library, s: Bytes): Option<Taken> {
    var h := lib.parse(s);
    if !(0 < h <= |s|) then None
    else
      var head := s[..h];
      match lib.head(head).framing
      case NoBody => Some(Taken(h, head, []))
      case Length(n) => if h + n <= |s| then Some(Taken(h + n, head, s[h..h + n])) else None
      case Chunked =>
        var f := lib.feed(0, s[h..]);
        if 0 <= f.ret <= |s| - h then Some(Taken(|s| - f.ret, head, f.out)) else None
  }

  predicate OverLimit(w: World, head: Bytes) {
    var f := w.lib.head(head).framing;
    f.Length? && f.n > w.maxBody
  }

  /** The stream starts with a whole request whose body is within the limit. */
  predicate Readable(w: World, s: Bytes) {
    var t := Take(w.lib, s);
    t.Some? && |t.value.body| <= w.maxBody
  }

  /** What is wrong with the body in `s`, which is all there is of it. */
  predicate Flawed(w: World, s: Bytes, h: nat, flaw: Flaw)
    requires h <= |s|
  {
    match w.lib.head(s[..h]).framing
    case NoBody => false
    case Length(n) => flaw == Truncated && |s| < h + n
    case Chunked =>
      var f := w.lib.feed(0, s[h..]);
      match flaw
      case Oversize => |f.out| > w.maxBody
      case Malformed => |f.out| <= w.maxBody && f.ret == -1
      case Truncated => |f.out| <= w.maxBody && f.ret == -2
  }

  /** Request number `i`, at the front of `s`, may have this outcome. */
  predicate OutcomeOk(w: World, i: nat, s: Bytes, h: nat, o: Outcome)
    requires h <= |s|
  {
    var takes := w.app.takesBody(i, s[..h]);
    match o
    case Untouched => !takes
    case Announced => takes && OverLimit(w, s[..h])
    case Complete(body) => takes && !OverLimit(w, s[..h]) && Readable(w, s) && Take(w.lib, s).value.body == body
    case Broken(size, flaw) => takes && !OverLimit(w, s[..h]) && h <= size <= |s| && Flawed(w, s[..size], h, flaw)
  }

  /** How far the stream has moved after it. */
  function Advance(w: World, s: Bytes, o: Outcome): nat {
    match o
    case Untouched => 0
    case Announced => 0
    case Complete(_) => if Take(w.lib, s).Some? then Take(w.lib, s).value.size else 0
    case Broken(size, _) => size
  }

  /** 100 Continue is sent exactly for these heads, when the body is asked for. */
  predicate Interim(w: World, i: nat, head: Bytes) {
    var f := w.lib.head(head);
    w.app.takesBody(i, head) && f.wantsContinue && f.framing != NoBody && !OverLimit(w, head)
  }

  /** The connection stays open after request number `i`. */
  predicate Continues(w: World, i: nat, head: Bytes) {
    w.lib.head(head).keepAlive && !w.app.draining(i)
  }

  /** The head is complete, and is for the application to answer. */
  predicate Answerable(lib: Library, s: Bytes) {
    var h := lib.parse(s);
    0 < h <= |s| && lib.head(s[..h]).reject.None? && !lib.head(s[..h]).takeover
  }

  /** The head at the front of the stream. */
  function HeadOf(lib: Library, s: Bytes): Bytes {
    if 0 < lib.parse(s) <= |s| then s[..lib.parse(s)] else []
  }

  function Answered(w: World, i: nat, head: Bytes, o: Outcome): (x: Exchange)
    ensures x.head == head && x.outcome == o
  {
    Exchange(head, o, Interim(w, i, head), w.lib.head(head).isHead, w.app.answer(i, head, Seen(o)))
  }

  /** Exchange number `i` is what the application makes of the request at the front of `s`. */
  predicate Legal(w: World, i: nat, s: Bytes, x: Exchange) {
    && Answerable(w.lib, s)
    && OutcomeOk(w, i, s, w.lib.parse(s), x.outcome)
    && x == Answered(w, i, s[..w.lib.parse(s)], x.outcome)
  }

  // ---------------------------------------------------------------- whole connections

  predicate Goes(w: World, xs: seq<Exchange>) {
    xs == [] || Continues(w, |xs| - 1, xs[|xs| - 1].head)
  }

  /** Where the exchanges of `xs` leave the stream `s`; none if they are not what the application makes of it. */
  function Reach(w: World, s: Bytes, xs: seq<Exchange>): (r: Option<nat>)
    ensures r.Some? ==> r.value <= |s|
  {
    if xs == [] then Some(0)
    else
      var n := |xs| - 1;
      var before := Reach(w, s, xs[..n]);
      if before.None? || !Goes(w, xs[..n]) then None
      else
        var rest := s[before.value..];
        if Legal(w, n, rest, xs[n]) && Advance(w, rest, xs[n].outcome) <= |rest|
        then Some(before.value + Advance(w, rest, xs[n].outcome))
        else None
  }

  datatype Served = Served(log: seq<Exchange>, at: nat)

  /** The outcome of the request at the front of `s`, when its body is all there or not asked for. */
  function Decide(w: World, i: nat, s: Bytes): (r: Option<Outcome>)
    ensures r.Some? ==> Answerable(w.lib, s)
  {
    if !Answerable(w.lib, s) then None
    else
      var head := s[..w.lib.parse(s)];
      if !w.app.takesBody(i, head) then Some(Untouched)
      else if OverLimit(w, head) then Some(Announced)
      else if Readable(w, s) then Some(Complete(Take(w.lib, s).value.body))
      else None
  }

  /**
   The first `n` exchanges on the stream `s`, and where they leave it: a function of the bytes and the
   application.
   */
  function Serve(w: World, s: Bytes, n: nat): (r: Option<Served>)
    ensures r.Some? ==> |r.value.log| == n && r.value.at <= |s|
  {
    if n == 0 then Some(Served([], 0))
    else
      var p := Serve(w, s, n - 1);
      if p.None? || !Goes(w, p.value.log) then None
      else
        var rest := s[p.value.at..];
        var o := Decide(w, n - 1, rest);
        if o.None? then None
        else
          DecideFits(w, n - 1, rest);
          var x := Answered(w, n - 1, rest[..w.lib.parse(rest)], o.value);
          Some(Served(p.value.log + [x], p.value.at + Advance(w, rest, o.value)))
  }

  lemma DecideFits(w: World, i: nat, s: Bytes)
    ensures Decide(w, i, s).Some? ==> Advance(w, s, Decide(w, i, s).value) <= |s|
  {
  }

  /** No body broke: what happens does not depend on how the bytes arrive. */
  predicate Unbroken(xs: seq<Exchange>) {
    forall i :: 0 <= i < |xs| ==> !xs[i].outcome.Broken?
  }

  lemma ParseStable(lib: Library, b: Bytes, x: Bytes)
    requires Obeys(lib) && lib.parse(b) > 0
    ensures lib.parse(b + x) == lib.parse(b) <= |b|
  {
  }

  lemma ParseBounds(lib: Library, b: Bytes)
    requires Obeys(lib)
    ensures lib.parse(b) == -1 || lib.parse(b) == -2 || 0 < lib.parse(b) <= |b|
  {
  }

  lemma FeedBounds(lib: Library, s: nat, b: Bytes)
    requires Obeys(lib)
    ensures lib.feed(s, b).ret == -1 || lib.feed(s, b).ret == -2 || 0 <= lib.feed(s, b).ret <= |b|
  {
  }

  lemma FeedDone(lib: Library, s: nat, b: Bytes, x: Bytes)
    requires Obeys(lib) && lib.feed(s, b).ret >= 0
    ensures lib.feed(s, b + x) == Longer(lib.feed(s, b), |x|)
  {
  }

  lemma FeedMore(lib: Library, s: nat, b: Bytes, x: Bytes)
    requires Obeys(lib) && lib.feed(s, b).ret == -2
    ensures lib.feed(s, b + x) == After(lib.feed(s, b), lib.feed(lib.feed(s, b).state, x))
  {
  }

  lemma FeedBad(lib: Library, s: nat, b: Bytes, x: Bytes)
    requires Obeys(lib) && lib.feed(s, b).ret == -1
    ensures lib.feed(s, b + x).ret == -1
  {
  }

  lemma NothingFed(lib: Library)
    requires Obeys(lib)
    ensures lib.feed(0, []) == Fed(0, [], -2)
  {
  }

  lemma EmptyIsIncomplete(lib: Library)
    requires Obeys(lib)
    ensures lib.parse([]) == -2
  {
  }

  lemma TakeBounds(lib: Library, s: Bytes)
    ensures Take(lib, s).Some? ==> 0 < Take(lib, s).value.size <= |s|
  {
  }

  /** The first request does not depend on what follows it. */
  lemma TakeStable(lib: Library, s: Bytes, x: Bytes)
    requires Obeys(lib) && Take(lib, s).Some?
    ensures Take(lib, s + x) == Take(lib, s)
  {
    hide Obeys;
    ParseStable(lib, s, x);
    var h := lib.parse(s);
    assert (s + x)[..h] == s[..h];
    match lib.head(s[..h]).framing
    case NoBody =>
    case Length(n) => assert (s + x)[h..h + n] == s[h..h + n];
    case Chunked =>
      assert (s + x)[h..] == s[h..] + x;
      FeedDone(lib, 0, s[h..], x);
  }

  lemma OutcomeStable(w: World, i: nat, s: Bytes, h: nat, o: Outcome, x: Bytes)
    requires Obeys(w.lib) && h <= |s| && OutcomeOk(w, i, s, h, o)
    ensures OutcomeOk(w, i, s + x, h, o) && Advance(w, s + x, o) == Advance(w, s, o)
  {
    hide Obeys, Take, Flawed, OverLimit;
    assert (s + x)[..h] == s[..h];
    match o
    case Complete(_) => TakeStable(w.lib, s, x);
    case Broken(size, _) => assert (s + x)[..size] == s[..size];
    case _ =>
  }

  lemma LegalStable(w: World, i: nat, s: Bytes, e: Exchange, x: Bytes)
    requires Obeys(w.lib) && Legal(w, i, s, e)
    ensures Legal(w, i, s + x, e) && Advance(w, s + x, e.outcome) == Advance(w, s, e.outcome)
  {
    hide Obeys, OutcomeOk, Advance, Answered;
    ParseStable(w.lib, s, x);
    var h := w.lib.parse(s);
    assert (s + x)[..h] == s[..h];
    OutcomeStable(w, i, s, h, e.outcome, x);
  }

  lemma {:induction false} ReachMore(w: World, s: Bytes, xs: seq<Exchange>, x: Bytes)
    requires Obeys(w.lib) && Reach(w, s, xs).Some?
    ensures Reach(w, s + x, xs) == Reach(w, s, xs)
  {
    hide Obeys, Legal, Advance, Goes;
    if xs != [] {
      var n := |xs| - 1;
      ReachMore(w, s, xs[..n], x);
      var k := Reach(w, s, xs[..n]).value;
      assert (s + x)[k..] == s[k..] + x;
      LegalStable(w, n, s[k..], xs[n], x);
    }
  }

  lemma ReachNext(w: World, s: Bytes, xs: seq<Exchange>, x: Exchange)
    requires Reach(w, s, xs).Some? && Goes(w, xs)
    requires var rest := s[Reach(w, s, xs).value..]; Legal(w, |xs|, rest, x) && Advance(w, rest, x.outcome) <= |rest|
    ensures var k := Reach(w, s, xs).value; Reach(w, s, xs + [x]) == Some(k + Advance(w, s[k..], x.outcome))
  {
    hide Legal, Advance, Goes;
    assert (xs + [x])[..|xs|] == xs;
  }

  lemma DecideIsOutcome(w: World, i: nat, s: Bytes, o: Outcome)
    requires !o.Broken? && Answerable(w.lib, s)
    ensures OutcomeOk(w, i, s, w.lib.parse(s), o) <==> Decide(w, i, s) == Some(o)
  {
    hide Take;
  }

  lemma {:induction false} ReachServes(w: World, s: Bytes, xs: seq<Exchange>)
    requires Unbroken(xs) && Reach(w, s, xs).Some?
    ensures Serve(w, s, |xs|) == Some(Served(xs, Reach(w, s, xs).value))
    decreases |xs|
  {
    hide Advance, Goes, OutcomeOk, Decide, Answered;
    if xs != [] {
      var n := |xs| - 1;
      var init, x := xs[..n], xs[n];
      assert xs == init + [x];
      var b := Reach(w, s, init).value;
      ReachServes(w, s, init);
      DecideIsOutcome(w, n, s[b..], x.outcome);
      DecideFits(w, n, s[b..]);
    }
  }

  lemma {:induction false} ServeReaches(w: World, s: Bytes, n: nat)
    requires Serve(w, s, n).Some?
    ensures var p := Serve(w, s, n).value; Unbroken(p.log) && Reach(w, s, p.log) == Some(p.at)
    decreases n
  {
    hide Advance, Goes, Legal, Decide, Answered, Reach;
    if n == 0 {
      ReachNone(w, s);
    } else {
      ServeReaches(w, s, n - 1);
      var p := Serve(w, s, n - 1).value;
      var x := Serve(w, s, n).value.log[n - 1];
      var rest := s[p.at..];
      ServedIsLegal(w, n - 1, rest, x);
      ReachNext(w, s, p.log, x);
    }
  }

  lemma ReachNone(w: World, s: Bytes)
    ensures Reach(w, s, []) == Some(0)
  {
  }

  /** Without broken bodies, the exchanges of a connection are the reference function of the bytes. */
  lemma ReachIsServe(w: World, s: Bytes, xs: seq<Exchange>, k: nat)
    ensures Unbroken(xs) && Reach(w, s, xs) == Some(k) <==> Serve(w, s, |xs|) == Some(Served(xs, k))
  {
    hide Reach, Serve;
    if Unbroken(xs) && Reach(w, s, xs) == Some(k) {
      ReachServes(w, s, xs);
    }
    if Serve(w, s, |xs|) == Some(Served(xs, k)) {
      ServeReaches(w, s, |xs|);
    }
  }

  /**
   However the stream was cut into reads: two connections that received the same bytes, one perhaps more of them,
   had the same exchanges.
   */
  lemma ArrivalDoesNotMatter(w: World, s: Bytes, more: Bytes, xs: seq<Exchange>, ys: seq<Exchange>)
    requires Obeys(w.lib) && |xs| == |ys| && Unbroken(xs) && Unbroken(ys)
    requires Reach(w, s, xs).Some? && Reach(w, s + more, ys).Some?
    ensures xs == ys && Reach(w, s, xs) == Reach(w, s + more, ys)
  {
    hide Obeys, Reach, Serve;
    ReachMore(w, s, xs, more);
    ReachServes(w, s + more, xs);
    ReachServes(w, s + more, ys);
  }

  // ---------------------------------------------------------------- where the left-over bytes stand

  /** `left` is what follows the first request of `s`. */
  predicate FollowsFirst(lib: Library, s: Bytes, left: Bytes) {
    var t := Take(lib, s);
    t.Some? && t.value.size <= |s| && left == s[t.value.size..]
  }

  /** Request number `i` at the front of `s` was answered with `x`, and this is what is left of all that has come. */
  ghost predicate Handled(w: World, i: nat, s: Bytes, x: Exchange, left: Bytes) {
    && Legal(w, i, s, x) && Advance(w, s, x.outcome) <= |s| && left == s[Advance(w, s, x.outcome)..]
    && (x.outcome.Broken? ==> x.outcome.size == |s|)
  }

  /**
   The stream stays where it is, so that the same request comes again, exactly when the application does not ask
   for the body or the announced length is over the limit.
   */
  lemma StaysIff(w: World, i: nat, s: Bytes, x: Exchange, left: Bytes)
    requires Handled(w, i, s, x, left)
    ensures left == s <==> !w.app.takesBody(i, x.head) || OverLimit(w, x.head)
  {
    hide Flawed;
    TakeBounds(w.lib, s);
  }

  /**
   What is left is what follows the request exactly when the body was asked for, is not announced as too large,
   is all there, and is within the limit or has nothing behind it.
   */
  lemma ContinuesIff(w: World, i: nat, s: Bytes, x: Exchange, left: Bytes)
    requires Handled(w, i, s, x, left)
    ensures FollowsFirst(w.lib, s, left) <==>
      && w.app.takesBody(i, x.head) && !OverLimit(w, x.head) && Take(w.lib, s).Some?
      && (|Take(w.lib, s).value.body| <= w.maxBody || Take(w.lib, s).value.size == |s|)
  {
    TakeBounds(w.lib, s);
    if x.outcome.Broken? {
      assert s[..|s|] == s;
    }
  }

  /** A body that is malformed or too large stays so, whatever comes after. */
  lemma FlawStays(w: World, s: Bytes, h: nat, size: nat, flaw: Flaw)
    requires Obeys(w.lib) && 0 < h == w.lib.parse(s) <= size <= |s| && flaw != Truncated
    requires Flawed(w, s[..size], h, flaw)
    ensures !Readable(w, s)
  {
    hide Obeys;
    var b, x := s[h..size], s[size..];
    assert s[..size][..h] == s[..h] && s[..size][h..] == b && s[h..] == b + x;
    FeedBounds(w.lib, 0, b);
    var f := w.lib.feed(0, b);
    if f.ret >= 0 {
      FeedDone(w.lib, 0, b, x);
    } else if f.ret == -2 {
      FeedMore(w.lib, 0, b, x);
    } else {
      FeedBad(w.lib, 0, b, x);
    }
  }

  /** The peer went away in the middle of the body. */
  predicate CutOff(o: Outcome) {
    o.Broken? && o.flaw == Truncated
  }

  /** Exchange number `i` is legal where the ones before it leave the stream, and moves it on. */
  lemma ReachAt(w: World, s: Bytes, xs: seq<Exchange>, i: nat)
    requires Reach(w, s, xs).Some? && i < |xs|
    ensures Reach(w, s, xs[..i]).Some? && Reach(w, s, xs[..i + 1]).Some? && Goes(w, xs[..i])
    ensures var at := Reach(w, s, xs[..i]).value;
      Legal(w, i, s[at..], xs[i]) && Reach(w, s, xs[..i + 1]) == Some(at + Advance(w, s[at..], xs[i].outcome))
  {
    hide Legal, Advance, Goes;
    ReachPrefix(w, s, xs, i);
    ReachPrefix(w, s, xs, i + 1);
    assert xs[..i + 1][..i] == xs[..i] && xs[..i + 1][i] == xs[i];
  }

  /** A body that is reported as broken cannot be read: not at the time, and not in all that was received. */
  lemma BrokenIsUnreadable(w: World, s: Bytes, xs: seq<Exchange>, i: nat)
    requires Obeys(w.lib) && Reach(w, s, xs).Some? && i < |xs| && xs[i].outcome.Broken?
    requires CutOff(xs[i].outcome) ==> i == |xs| - 1 && Reach(w, s, xs) == Some(|s|)
    ensures Reach(w, s, xs[..i]).Some? && !Readable(w, s[Reach(w, s, xs[..i]).value..])
  {
    hide Obeys, Readable, Flawed, Reach, Answered;
    ReachAt(w, s, xs, i);
    var rest := s[Reach(w, s, xs[..i]).value..];
    var o := xs[i].outcome;
    if CutOff(o) {
      assert xs[..i + 1] == xs;
      assert o.size == |rest|;
      assert rest[..|rest|] == rest;
      CutIsUnreadable(w, rest, w.lib.parse(rest));
    } else {
      FlawStays(w, rest, w.lib.parse(rest), o.size, o.flaw);
    }
  }

  lemma CutIsUnreadable(w: World, s: Bytes, h: nat)
    requires 0 < h == w.lib.parse(s) <= |s| && Flawed(w, s, h, Truncated)
    ensures !Readable(w, s)
  {
  }

  lemma {:induction false} ReachPrefix(w: World, s: Bytes, xs: seq<Exchange>, i: nat)
    requires Reach(w, s, xs).Some? && i <= |xs|
    ensures Reach(w, s, xs[..i]).Some?
    decreases |xs|
  {
    hide Legal, Advance, Goes;
    if i < |xs| {
      var init := xs[..|xs| - 1];
      ReachPrefix(w, s, init, i);
      assert init[..i] == xs[..i];
    } else {
      assert xs[..i] == xs;
    }
  }

  lemma ServedIsLegal(w: World, i: nat, s: Bytes, x: Exchange)
    requires var o := Decide(w, i, s);
      o.Some? && Answerable(w.lib, s) && x == Answered(w, i, s[..w.lib.parse(s)], o.value)
    ensures Legal(w, i, s, x) && Advance(w, s, x.outcome) <= |s| && !x.outcome.Broken?
    ensures Decide(w, i, s) == Some(x.outcome)
  {
    hide Take;
    DecideIsOutcome(w, i, s, x.outcome);
    DecideFits(w, i, s);
  }

  // ---------------------------------------------------------------- what an exchange says

  /** The first request is its head and as many bytes as its framing says, and nothing else. */
  lemma TakeIs(lib: Library, s: Bytes)
    requires Take(lib, s).Some?
    ensures var t := Take(lib, s).value;
      && t.head <= s && |t.head| == lib.parse(s) && t.size <= |s|
      && (lib.head(t.head).framing == NoBody ==> t.body == [] && t.size == |t.head|)
      && (lib.head(t.head).framing.Length? ==>
            |t.body| == lib.head(t.head).framing.n && t.head + t.body == s[..t.size])
      && (lib.head(t.head).framing.Chunked? ==>
            var f := lib.feed(0, s[|t.head|..]); t.body == f.out && t.size + f.ret == |s|)
  {
    var t := Take(lib, s).value;
    if lib.head(t.head).framing.Length? {
      assert s[..t.size] == t.head + t.body;
    }
  }

  /** The bytes of one exchange: 100 Continue where it is due, the head of the answer, and its body unless for HEAD. */
  lemma OutputIs(x: Exchange)
    ensures Output(x) == (if x.interim then "HTTP/1.1 100 Continue\r\n\r\n" else "") + x.response.head
                         + (if x.isHead then "" else x.response.body)
  {
    var a := if x.interim then CONTINUE else [];
    var b := if x.isHead then [] else x.response.body;
    assert a + (x.response.head + b) == (a + x.response.head) + b;
  }

  /** What the application is told about the body of its request. */
  ghost predicate Told(w: World, i: nat, s: Bytes, x: Exchange, reading: Reading) {
    var f := w.lib.head(x.head).framing;
    match reading
    case NotAsked => !w.app.takesBody(i, x.head)
    case TooLong => w.app.takesBody(i, x.head) && f.Length? && f.n > w.maxBody
    case Whole(body) =>
      && w.app.takesBody(i, x.head) && |body| <= w.maxBody
      && Take(w.lib, s).Some? && Take(w.lib, s).value.body == body
    case Failed(_) => w.app.takesBody(i, x.head) && x.outcome.Broken?
  }

  /**
   Every exchange of a connection answers the head at the place that the exchanges before it leave, with the
   application's answer to that head and to what became of its body; and there is a next one only if the head
   keeps the connection and the server is not draining.
   */
  lemma EveryExchange(w: World, s: Bytes, xs: seq<Exchange>, i: nat)
    requires Reach(w, s, xs).Some? && i < |xs|
    ensures Reach(w, s, xs[..i]).Some?
    ensures var rest, x, f := s[Reach(w, s, xs[..i]).value..], xs[i], w.lib.head(xs[i].head);
      && x.head <= rest && |x.head| == w.lib.parse(rest) && f.reject.None? && !f.takeover && x.isHead == f.isHead
      && (exists reading :: Told(w, i, rest, x, reading) && x.response == w.app.answer(i, x.head, reading))
      && (x.interim <==>
            && w.app.takesBody(i, x.head) && f.wantsContinue
            && (f.framing.Chunked? || (f.framing.Length? && f.framing.n <= w.maxBody)))
      && (i + 1 < |xs| ==> f.keepAlive && !w.app.draining(i))
  {
    hide Reach;
    ReachAt(w, s, xs, i);
    var rest, x := s[Reach(w, s, xs[..i]).value..], xs[i];
    if i + 1 < |xs| {
      ReachAt(w, s, xs, i + 1);
      assert xs[..i + 1][i] == xs[i];
    }
    LegalTold(w, i, rest, x);
  }

  lemma LegalTold(w: World, i: nat, s: Bytes, x: Exchange)
    requires Legal(w, i, s, x)
    ensures Told(w, i, s, x, Seen(x.outcome)) && x.response == w.app.answer(i, x.head, Seen(x.outcome))
  {
    hide Take, Flawed;
  }
}
