/**
 The middleware chain builder: maximal runs of synchronous entries are fused into one
 layer, asynchronous entries wrap what is inside them. `R` is the request as it is
 passed on, `S` the response.
 */
module MiddlewareChain {
  import opened Base

  datatype Out<R, S> = Out(req: R, res: S)

  datatype Check<R, S> = Check(req: R, answer: Option<S>)

  /**
   An asynchronous entry gets the rest of the chain to call; a synchronous one looks at the request and perhaps
   at the response.
   */
  datatype Entry<!R, !S> =
    | Async(handler: (R, R -> Out<R, S>) -> Out<R, S>)
    | Sync(before: R -> Check<R, S>, after: Option<(R, S) -> Out<R, S>>)

  // ---------------------------------------------------------------- one fused run

  /** How the `before`s end: all passed, or entry `at` answered. */
  datatype Entered<R, S> = Passed(req: R) | Stopped(at: nat, req: R, res: S)

  predicate AllSync<R, S>(es: seq<Entry<R, S>>) {
    forall i :: 0 <= i < |es| ==> es[i].Sync?
  }

  function Befores<R, S>(es: seq<Entry<R, S>>, r: R): (e: Entered<R, S>)
    requires AllSync(es)
    ensures e.Stopped? ==> e.at < |es|
  {
    if es == [] then Passed(r)
    else
      var c := es[0].before(r);
      if c.answer.Some? then Stopped(0, c.req, c.answer.value)
      else
        match Befores(es[1..], c.req)
        case Passed(q) => Passed(q)
        case Stopped(k, q, s) => Stopped(k + 1, q, s)
  }

  function AfterOne<R, S>(e: Entry<R, S>, o: Out<R, S>): Out<R, S> {
    if e.Sync? && e.after.Some? then e.after.value(o.req, o.res) else o
  }

  /** The `after`s, last entry first. */
  function Afters<R, S>(es: seq<Entry<R, S>>, o: Out<R, S>): Out<R, S> {
    if es == [] then o else AfterOne(es[0], Afters(es[1..], o))
  }

  function Group<R, S>(es: seq<Entry<R, S>>, next: R -> Out<R, S>, r: R): Out<R, S>
    requires AllSync(es)
  {
    match Befores(es, r)
    case Stopped(_, q, s) => Out(q, s)
    case Passed(q) => Afters(es, next(q))
  }

  // ---------------------------------------------------------------- the chains

  function SyncRun<R, S>(es: seq<Entry<R, S>>): (n: nat)
    ensures n <= |es| && AllSync(es[..n]) && (n < |es| ==> es[n].Async?)
    ensures es != [] && es[0].Sync? ==> n > 0
  {
    if es == [] || es[0].Async? then 0
    else
      var n := 1 + SyncRun(es[1..]);
      assert es[..n] == [es[0]] + es[1..][..n - 1];
      n
  }

  /** The chain as it is built: whole runs fused. */
  function Fused<R, S>(es: seq<Entry<R, S>>, final: R -> Out<R, S>, r: R): Out<R, S>
    decreases |es|
  {
    if es == [] then final(r)
    else if es[0].Async? then es[0].handler(r, x => Fused(es[1..], final, x))
    else
      var n := SyncRun(es);
      Group(es[..n], x => Fused(es[n..], final, x), r)
  }

  /** The reference: every entry is a layer of its own. */
  function Nested<R, S>(es: seq<Entry<R, S>>, final: R -> Out<R, S>, r: R): Out<R, S>
    decreases |es|
  {
    if es == [] then final(r)
    else
      match es[0]
      case Async(handler) => handler(r, x => Nested(es[1..], final, x))
      case Sync(before, _) =>
        var c := before(r);
        if c.answer.Some? then Out(c.req, c.answer.value)
        else AfterOne(es[0], Nested(es[1..], final, c.req))
  }

  // ---------------------------------------------------------------- one run, compared

  /**
   What one-by-one nesting makes of a run of synchronous entries: an intercepted answer passes the `after`s of
   the entries outside it.
   */
  lemma {:induction false} NestedRun<R, S>(es: seq<Entry<R, S>>, n: nat, final: R -> Out<R, S>, r: R)
    requires n <= |es| && AllSync(es[..n])
    ensures Nested(es, final, r) ==
      match Befores(es[..n], r)
      case Stopped(k, q, s) => Afters(es[..k], Out(q, s))
      case Passed(q) => Afters(es[..n], Nested(es[n..], final, q))
    decreases n
  {
    if n == 0 {
      assert es[..0] == [] && es[0..] == es;
    } else {
      assert es[..n][0] == es[0];
      var c := es[0].before(r);
      if c.answer.Some? {
        assert es[..0] == [];
      } else {
        assert es[..n][1..] == es[1..][..n - 1] && es[1..][n - 1..] == es[n..];
        assert AllSync(es[1..][..n - 1]);
        NestedRun(es[1..], n - 1, final, c.req);
        match Befores(es[1..][..n - 1], c.req)
        case Passed(q) =>
        case Stopped(k, q, s) =>
          assert es[..k + 1][1..] == es[1..][..k] && es[..k + 1][0] == es[0];
      }
    }
  }

  /** If a `before` answers, its answer passes unchanged through the `after`s of the entries in front of it. */
  ghost predicate Unaffected<R, S>(es: seq<Entry<R, S>>, r: R)
    requires AllSync(es)
  {
    match Befores(es, r)
    case Passed(_) => true
    case Stopped(k, q, s) => Afters(es[..k], Out(q, s)) == Out(q, s)
  }

  /**
   For one run and one request, fusing gives what nesting gives exactly if no `before` answers or the answer is
   unaffected.
   */
  lemma GroupIsNestedIff<R, S>(es: seq<Entry<R, S>>, final: R -> Out<R, S>, r: R)
    requires AllSync(es)
    ensures Group(es, final, r) == Nested(es, final, r) <==> Unaffected(es, r)
    ensures Befores(es, r).Passed? ==> Unaffected(es, r)
  {
    assert es[..|es|] == es && es[|es|..] == [];
    NestedRun(es, |es|, final, r);
  }

  /** An answer of a `before` skips what is inside the run, and all the `after`s of the run. */
  lemma InterceptionSkipsInside<R, S>(es: seq<Entry<R, S>>, rest: seq<Entry<R, S>>, final: R -> Out<R, S>, r: R)
    requires AllSync(es) && (rest != [] ==> rest[0].Async?) && Befores(es, r).Stopped?
    ensures var e := Befores(es, r); Fused(es + rest, final, r) == Out(e.req, e.res)
  {
    SyncRunIs(es, rest);
    assert (es + rest)[..|es|] == es && (es + rest)[|es|..] == rest;
  }

  lemma {:induction false} SyncRunIs<R, S>(es: seq<Entry<R, S>>, rest: seq<Entry<R, S>>)
    requires AllSync(es) && (rest != [] ==> rest[0].Async?)
    ensures SyncRun(es + rest) == |es|
  {
    if es != [] {
      assert (es + rest)[1..] == es[1..] + rest;
      SyncRunIs(es[1..], rest);
    } else {
      assert es + rest == rest;
    }
  }

  /**
   The layers outside a run see its answer: an asynchronous entry through the call it makes, a run outside that
   through its `after`s.
   */
  lemma OuterSeesAnswer<R(!new), S(!new)>(
    outer: seq<Entry<R, S>>, mw: Entry<R, S>, es: seq<Entry<R, S>>, rest: seq<Entry<R, S>>, final: R -> Out<R, S>, r: R)
    requires AllSync(outer) && mw.Async? && AllSync(es) && (rest != [] ==> rest[0].Async?) && Befores(outer, r).Passed?
    requires Extensional(mw)
    ensures Fused(outer + [mw] + (es + rest), final, r) ==
      Afters(outer, mw.handler(Befores(outer, r).req, x => Group(es, y => Fused(rest, final, y), x)))
  {
    hide Fused, Extensional;
    assert outer + [mw] + (es + rest) == outer + ([mw] + (es + rest));
    InnerIs(outer, [mw] + (es + rest), final, r);
    CallSeesAnswer(mw, es, rest, final, Befores(outer, r).req);
  }

  lemma CallSeesAnswer<R(!new), S(!new)>(
    mw: Entry<R, S>, es: seq<Entry<R, S>>, rest: seq<Entry<R, S>>, final: R -> Out<R, S>, q: R)
    requires mw.Async? && AllSync(es) && (rest != [] ==> rest[0].Async?) && Extensional(mw)
    ensures Fused([mw] + (es + rest), final, q) == mw.handler(q, x => Group(es, y => Fused(rest, final, y), x))
  {
    hide Group;
    var all := [mw] + (es + rest);
    assert all[0] == mw && all[1..] == es + rest;
    var f, g := x => Fused(all[1..], final, x), x => Group(es, y => Fused(rest, final, y), x);
    forall x ensures f(x) == g(x) {
      InnerIs(es, rest, final, x);
    }
  }

  lemma InnerIs<R, S>(es: seq<Entry<R, S>>, rest: seq<Entry<R, S>>, final: R -> Out<R, S>, r: R)
    requires AllSync(es) && (rest != [] ==> rest[0].Async?)
    ensures Fused(es + rest, final, r) == Group(es, y => Fused(rest, final, y), r)
  {
    if es == [] {
      assert es + rest == rest;
    } else {
      SyncRunIs(es, rest);
      assert (es + rest)[..|es|] == es && (es + rest)[|es|..] == rest;
    }
  }

  // ---------------------------------------------------------------- the onion, layer by layer

  /** `qs[i]` is the request that entry `i` gets, when the entries before it have let it pass. */
  ghost predicate GoesIn<R, S>(es: seq<Entry<R, S>>, r: R, qs: seq<R>) {
    && qs != [] && |qs| <= |es| + 1 && qs[0] == r && AllSync(es)
    && forall i :: 0 <= i < |qs| - 1 ==> es[i].before(qs[i]) == Check(qs[i + 1], None)
  }

  /** `os[i]` is what leaves entry `i`, and the last one comes from inside the run. */
  ghost predicate ComesOut<R, S>(es: seq<Entry<R, S>>, os: seq<Out<R, S>>) {
    && |os| == |es| + 1 && AllSync(es)
    && (forall i :: 0 <= i < |es| && es[i].after.Some? ==> os[i] == es[i].after.value(os[i + 1].req, os[i + 1].res))
    && (forall i :: 0 <= i < |es| && es[i].after.None? ==> os[i] == os[i + 1])
  }

  lemma {:induction false} InIs<R, S>(es: seq<Entry<R, S>>, r: R, qs: seq<R>)
    requires GoesIn(es, r, qs)
    ensures |qs| == |es| + 1 ==> Befores(es, r) == Passed(qs[|es|])
    ensures |qs| <= |es| && es[|qs| - 1].before(qs[|qs| - 1]).answer.Some? ==>
      var c := es[|qs| - 1].before(qs[|qs| - 1]); Befores(es, r) == Stopped(|qs| - 1, c.req, c.answer.value)
    decreases |es|
  {
    if |qs| > 1 {
      assert es[0].before(qs[0]) == Check(qs[1], None);
      InIs(es[1..], qs[1], qs[1..]);
    }
  }

  lemma {:induction false} OutIs<R, S>(es: seq<Entry<R, S>>, os: seq<Out<R, S>>)
    requires ComesOut(es, os)
    ensures Afters(es, os[|es|]) == os[0]
  {
    if es != [] {
      OutIs(es[1..], os[1..]);
    }
  }

  /** A request that passes goes in through every `before` in order and comes out through every `after` in reverse. */
  lemma RunIsOnion<R, S>(es: seq<Entry<R, S>>, next: R -> Out<R, S>, r: R, qs: seq<R>, os: seq<Out<R, S>>)
    requires GoesIn(es, r, qs) && |qs| == |es| + 1 && ComesOut(es, os) && os[|es|] == next(qs[|es|])
    ensures Group(es, next, r) == os[0] && Nested(es, next, r) == os[0]
  {
    hide Befores, Afters, Nested;
    InIs(es, r, qs);
    OutIs(es, os);
    GroupIsNestedIff(es, next, r);
  }

  /** A request that entry `|qs| - 1` answers goes no further in, and its answer is the answer of the run. */
  lemma RunStops<R, S>(es: seq<Entry<R, S>>, next: R -> Out<R, S>, r: R, qs: seq<R>)
    requires GoesIn(es, r, qs) && |qs| <= |es| && es[|qs| - 1].before(qs[|qs| - 1]).answer.Some?
    ensures var c := es[|qs| - 1].before(qs[|qs| - 1]); Group(es, next, r) == Out(c.req, c.answer.value)
  {
    hide Befores, Afters;
    InIs(es, r, qs);
  }

  // ---------------------------------------------------------------- whole chains, compared

  /** An asynchronous entry can only call the rest of the chain, not look inside it. */
  ghost predicate Extensional<R(!new), S(!new)>(e: Entry<R, S>)
    requires e.Async?
  {
    forall r: R, f: R -> Out<R, S>, g: R -> Out<R, S> :: (forall x: R :: f(x) == g(x)) ==>
      e.handler(r, f) == e.handler(r, g)
  }

  /** In every run, answers of `before`s are unaffected by the `after`s they would pass. */
  ghost predicate Harmless<R(!new), S(!new)>(es: seq<Entry<R, S>>)
    decreases |es|
  {
    if es == [] then true
    else if es[0].Async? then Extensional(es[0]) && Harmless(es[1..])
    else
      var n := SyncRun(es);
      (forall r :: Unaffected(es[..n], r)) && Harmless(es[n..])
  }

  /** Fusing changes nothing, for every request and every final handler. */
  lemma {:induction false} FusedIsNested<R(!new), S(!new)>(es: seq<Entry<R, S>>, final: R -> Out<R, S>, r: R)
    requires Harmless(es)
    ensures Fused(es, final, r) == Nested(es, final, r)
    decreases |es|
  {
    if es != [] {
      if es[0].Async? {
        var f, g := x => Fused(es[1..], final, x), x => Nested(es[1..], final, x);
        forall x ensures f(x) == g(x) {
          FusedIsNested(es[1..], final, x);
        }
        assert es[0].handler(r, f) == es[0].handler(r, g);
      } else {
        var n := SyncRun(es);
        NestedRun(es, n, final, r);
        assert Unaffected(es[..n], r);
        match Befores(es[..n], r)
        case Passed(q) => FusedIsNested(es[n..], final, q);
        case Stopped(k, q, s) => assert es[..n][..k] == es[..k];
      }
    }
  }

  /**
   What the entry makes of request `r` depends on the rest of the chain only at the requests that satisfy
   `passes`.
   */
  ghost predicate CallsOnly<R(!new), S(!new)>(e: Entry<R, S>, r: R, passes: R -> bool)
    requires e.Async?
  {
    forall f: R -> Out<R, S>, g: R -> Out<R, S> ::
      (forall x: R :: passes(x) ==> f(x) == g(x)) ==> e.handler(r, f) == e.handler(r, g)
  }

  /** This request is harmless at every run it reaches; `reach(n, x)` says that `x` may get to the last `n` entries. */
  ghost predicate HarmlessFor<R(!new), S(!new)>(es: seq<Entry<R, S>>, r: R, reach: (nat, R) -> bool)
    decreases |es|
  {
    if es == [] then true
    else if es[0].Async? then
      CallsOnly(es[0], r, x => reach(|es| - 1, x)) && forall x :: reach(|es| - 1, x) ==> HarmlessFor(es[1..], x, reach)
    else
      var n := SyncRun(es);
      Unaffected(es[..n], r) && (Befores(es[..n], r).Passed? ==> HarmlessFor(es[n..], Befores(es[..n], r).req, reach))
  }

  /** For one request, fusing changes nothing if the request is harmless at every run it reaches. */
  lemma {:induction false} FusedIsNestedFor<R(!new), S(!new)>(
    es: seq<Entry<R, S>>, final: R -> Out<R, S>, r: R, reach: (nat, R) -> bool)
    requires HarmlessFor(es, r, reach)
    ensures Fused(es, final, r) == Nested(es, final, r)
    decreases |es|
  {
    if es != [] {
      if es[0].Async? {
        var f, g := x => Fused(es[1..], final, x), x => Nested(es[1..], final, x);
        forall x | reach(|es| - 1, x) ensures f(x) == g(x) {
          FusedIsNestedFor(es[1..], final, x, reach);
        }
        assert es[0].handler(r, f) == es[0].handler(r, g);
      } else {
        var n := SyncRun(es);
        NestedRun(es, n, final, r);
        match Befores(es[..n], r)
        case Passed(q) => FusedIsNestedFor(es[n..], final, q, reach);
        case Stopped(k, q, s) => assert es[..n][..k] == es[..k];
      }
    }
  }

  /** In particular when no `before` ever answers. */
  lemma {:induction false} QuietIsHarmless<R(!new), S(!new)>(es: seq<Entry<R, S>>)
    requires forall i, r :: 0 <= i < |es| && es[i].Sync? ==> es[i].before(r).answer.None?
    requires forall i :: 0 <= i < |es| && es[i].Async? ==> Extensional(es[i])
    ensures Harmless(es)
    decreases |es|
  {
    hide Extensional;
    if es != [] {
      if es[0].Async? {
        QuietIsHarmless(es[1..]);
      } else {
        var n := SyncRun(es);
        QuietIsHarmless(es[n..]);
        forall r ensures Unaffected(es[..n], r) {
          QuietPasses(es[..n], r);
        }
      }
    }
  }

  lemma {:induction false} QuietPasses<R(!new), S(!new)>(es: seq<Entry<R, S>>, r: R)
    requires AllSync(es) && forall i, x :: 0 <= i < |es| ==> es[i].before(x).answer.None?
    ensures Befores(es, r).Passed?
  {
    if es != [] {
      QuietPasses(es[1..], es[0].before(r).req);
    }
  }

  /** Two entries for which fusing shows: an `after` that adds one, and a `before` that answers. */
  function Counting(): seq<Entry<int, int>> {
    [Sync(r => Check(r, None), Some((r, s) => Out(r, s + 1))), Sync(r => Check(r, Some(0)), None)]
  }

  lemma FusingCanShow(final: int -> Out<int, int>)
    ensures Fused(Counting(), final, 0) == Out(0, 0) && Nested(Counting(), final, 0) == Out(0, 1)
  {
    var es := Counting();
    assert AllSync(es);
    assert es[1..] == [es[1]];
    assert Befores(es[1..], 0) == Stopped(0, 0, 0);
    assert Befores(es, 0) == Stopped(1, 0, 0);
    assert es + [] == es;
    InterceptionSkipsInside(es, [], final, 0);
    assert Nested(es[1..], final, 0) == Out(0, 0);
  }

  // ---------------------------------------------------------------- the fused layer as code

  function AfterList<R, S>(es: seq<Entry<R, S>>): seq<(R, S) -> Out<R, S>> {
    if es == [] then []
    else (if es[0].Sync? && es[0].after.Some? then [es[0].after.value] else []) + AfterList(es[1..])
  }

  function ApplyBack<R, S>(fs: seq<(R, S) -> Out<R, S>>, o: Out<R, S>): Out<R, S> {
    if fs == [] then o
    else
      var last := fs[|fs| - 1](o.req, o.res);
      ApplyBack(fs[..|fs| - 1], last)
  }

  lemma {:induction false} ApplyBackFront<R, S>(f: (R, S) -> Out<R, S>, fs: seq<(R, S) -> Out<R, S>>, o: Out<R, S>)
    ensures ApplyBack([f] + fs, o) == (var q := ApplyBack(fs, o); f(q.req, q.res))
    decreases |fs|
  {
    if fs == [] {
      assert ([f] + fs)[..0] == [];
    } else {
      var n := |fs| - 1;
      assert ([f] + fs)[..n + 1] == [f] + fs[..n] && ([f] + fs)[n + 1] == fs[n];
      ApplyBackFront(f, fs[..n], fs[n](o.req, o.res));
    }
  }

  lemma {:induction false} AftersAreApplied<R, S>(es: seq<Entry<R, S>>, o: Out<R, S>)
    ensures ApplyBack(AfterList(es), o) == Afters(es, o)
  {
    if es != [] {
      AftersAreApplied(es[1..], o);
      if es[0].Sync? && es[0].after.Some? {
        ApplyBackFront(es[0].after.value, AfterList(es[1..]), o);
      } else {
        assert AfterList(es) == AfterList(es[1..]);
      }
    }
  }

  lemma BeforesUnfold<R, S>(es: seq<Entry<R, S>>, i: nat, r: R)
    requires i < |es| && AllSync(es)
    ensures AllSync(es[i..]) && AllSync(es[i + 1..])
    ensures var c := es[i].before(r);
      && (c.answer.Some? ==> Befores(es[i..], r) == Stopped(0, c.req, c.answer.value))
      && (c.answer.None? && Befores(es[i + 1..], c.req).Passed? ==> Befores(es[i..], r) == Befores(es[i + 1..], c.req))
      && (c.answer.None? && Befores(es[i + 1..], c.req).Stopped? ==>
            var e := Befores(es[i + 1..], c.req); Befores(es[i..], r) == Stopped(e.at + 1, e.req, e.res))
  {
    assert es[i..][1..] == es[i + 1..] && es[i..][0] == es[i];
  }

  /** The closure built for a run: the `before`s in order, the rest of the chain, the `after`s backwards. */
  method RunGroup<R, S>(es: seq<Entry<R, S>>, next: R -> Out<R, S>, r: R) returns (o: Out<R, S>)
    requires AllSync(es)
    ensures o == Group(es, next, r)
  {
    hide Befores, Afters;
    var q, i := r, 0;
    assert es[0..] == es;
    ghost var goal := Befores(es, r);
    while i < |es|
      invariant i <= |es|
      invariant AllSync(es[i..])
      invariant match Befores(es[i..], q)
                case Passed(x) => goal == Passed(x)
                case Stopped(k, x, s) => goal == Stopped(i + k, x, s)
    {
      BeforesUnfold(es, i, q);
      var c := es[i].before(q);
      q := c.req;
      if c.answer.Some? {
        return Out(q, c.answer.value);
      }
      i := i + 1;
    }
    BeforesNone(es[i..], q);
    o := next(q);
    AftersAreApplied(es, o);
    var fs := AfterList(es);
    ghost var result := ApplyBack(fs, o);
    var k := |fs|;
    assert fs[..k] == fs;
    while k > 0
      invariant 0 <= k <= |fs| && ApplyBack(fs[..k], o) == result
    {
      k := k - 1;
      assert fs[..k + 1][..k] == fs[..k];
      o := fs[k](o.req, o.res);
    }
  }

  lemma BeforesNone<R, S>(es: seq<Entry<R, S>>, r: R)
    requires es == []
    ensures Befores(es, r) == Passed(r)
  {
  }
}
