/**
 End-to-end retry safety of a pool request: the retry rule, the two-attempt loops of
 the pool, and the paths by which one attempt can end. The HTTP/2 paths carry a run of
 the session model, so that "not processed" is a statement about the peer.
 */
module Retry {
  import opened Base
  import opened HttpTypes
  import H2 = Http2Session

  datatype Method = Get | Post | Put | Delete | Patch | Head | Options | UnknownMethod

  predicate Idempotent(m: Method) {
    m == Get || m == Head || m == Put || m == Delete || m == Options
  }

  predicate Transient(code: ErrorCode) {
    match code
    case Eof => true
    case ConnectionReset => true
    case ConnectionRefused => true
    case ConnectionAborted => true
    case NetworkUnreachable => true
    case HostUnreachable => true
    case BrokenPipe => true
    case _ => false
  }

  predicate CanRetry(r: Result, m: Method, reused: bool, managed: bool) {
    if !Idempotent(m) || r.error.None? then false
    else
      var code := r.error.value.code;
      if managed && r.disposition == NotSent && Transient(code) then true
      else if r.protocol == Http1 then reused && r.status == 0 && Transient(code)
      else if r.disposition != NotProcessed || r.error.value.http2.None? then false
      else
        var raw := r.error.value.http2.value;
        || (code == Http2StreamError && raw.streamId > 0 && raw.code == REFUSED_STREAM)
        || (code == Http2ConnectionError && raw.streamId == 0)
  }

  /**
   How one call of the client ends. `acted` is the peer's choice on an HTTP/1 exchange;
   the HTTP/2 paths name a run of the session, a moment of it and the stream.
   */
  datatype Path =
    | TurnedAway(error: NetError, protocol: Protocol)            // configuration, connect, gate or deadline error
    | Http1Expired                                               // the deadline passed just before the write
    | Http1Exchange(error1: Option<NetError>, status: nat, body: seq<char>, acted: bool)
    | Http2TurnedAway(error2: NetError)                          // no stream slot
    | Http2Unsent(events: seq<H2.Event>, states: seq<H2.Session>, at: nat, id: nat, error3: NetError)
    | Http2Stream(events: seq<H2.Event>, states: seq<H2.Session>, at: nat, id: nat)

  ghost predicate Possible(p: Path) {
    match p
    case Http2Unsent(events, states, at, id, _) =>
      H2.IsRun(events, states) && at < |states| && id in states[at].unsentIds
    case Http2Stream(events, states, at, id) => H2.IsRun(events, states) && at < |states| && id in states[at].returned
    case _ => true
  }

  function ClientResult(p: Path): Result {
    match p
    case TurnedAway(error, protocol) => Unsent(error, protocol)
    case Http1Expired => Unsent(Deadline(), Http1)
    case Http1Exchange(error, status, body, _) => Result(error, status, body, [], Http1, PossiblyProcessed)
    case Http2TurnedAway(error) => Unsent(error, Http2)
    case Http2Unsent(_, _, _, _, error) => Unsent(error, Http2)
    case Http2Stream(_, states, at, id) =>
      if at < |states| && id in states[at].returned then states[at].returned[id] else Unsent(Aborted(), Http2)
  }

  /** The peer acted on the request, at whatever time up to the end of the session's run. */
  predicate Processed(p: Path) {
    match p
    case Http1Exchange(_, _, _, acted) => acted
    case Http2Unsent(_, states, at, id, _) => exists k :: at <= k < |states| && id in states[k].peer.processed
    case Http2Stream(_, states, at, id) => exists k :: at <= k < |states| && id in states[k].peer.processed
    case _ => false
  }

  /** Evidence collected by the client is never wrong about the peer. */
  lemma DispositionIsTrue(p: Path)
    requires Possible(p) && ClientResult(p).disposition != PossiblyProcessed
    ensures !Processed(p)
  {
    match p {
      case Http2Unsent(events, states, at, id, _) =>
        forall k: nat | at <= k < |states| ensures id !in states[k].peer.processed {
          H2.NotSentIsTrue(events, states, at, k, id);
        }
      case Http2Stream(events, states, at, id) =>
        H2.RunInv(events, states, at);
        forall k: nat | at <= k < |states| ensures id !in states[k].peer.processed {
          H2.NotProcessedIsTrue(events, states, at, k, id);
        }
      case _ =>
    }
  }

  lemma ProtocolIsTrue(p: Path)
    requires Possible(p) && ClientResult(p).protocol == Http1
    ensures !p.Http2Stream? && !p.Http2Unsent? && !p.Http2TurnedAway?
  {
    if p.Http2Stream? {
      H2.RunInv(p.events, p.states, p.at);
    }
  }

  // ---------------------------------------------------------------- the two-attempt loop

  /** What the environment decides around one attempt. */
  datatype Turn = Turn(
    stopped: bool, cancelled: bool, expired: bool,
    acquire: Option<NetError>, threw: Option<NetError>,
    reused: bool, path: Path, stoppedAfter: bool)

  function Blank(): Result {
    Result(None, 0, [], [], Http1, NotSent)
  }

  /** The error that ends the request before the client is asked, if any. */
  function Blocked(t: Turn): Option<NetError> {
    if t.stopped || t.cancelled then Some(Aborted())
    else if t.expired then Some(Deadline())
    else if t.acquire.Some? then t.acquire
    else t.threw
  }

  /** The result and the attempts actually made. */
  function Outcome(m: Method, managed: bool, turns: seq<Turn>, attempt: nat): (Result, seq<Turn>)
    requires attempt < 2 == |turns|
    decreases 2 - attempt
  {
    var t := turns[attempt];
    if Blocked(t).Some? then (Blank().(error := Blocked(t)), [])
    else
      var r := ClientResult(t.path);
      if t.stoppedAfter then (r.(error := Some(Aborted())), [t])
      else if attempt != 0 || !CanRetry(r, m, t.reused, managed) then (r, [t])
      else
        var (r', more) := Outcome(m, managed, turns, attempt + 1);
        (r', [t] + more)
  }

  method DoRequest(m: Method, managed: bool, turns: seq<Turn>) returns (result: Result, attempts: seq<Turn>)
    requires |turns| == 2
    ensures (result, attempts) == Outcome(m, managed, turns, 0)
  {
    result, attempts := Blank(), [];
    var attempt := 0;
    while attempt < 2
      invariant attempt <= 2
      invariant attempt == 0 ==> attempts == []
      invariant attempt == 1 ==>
        && attempts == [turns[0]]
        && Outcome(m, managed, turns, 0) ==
          (Outcome(m, managed, turns, 1).0, attempts + Outcome(m, managed, turns, 1).1)
      invariant attempt == 2 ==> Outcome(m, managed, turns, 0) == (result, attempts)
    {
      var t := turns[attempt];
      assert attempts + [] == attempts;
      result := Blank();
      if t.stopped || t.cancelled {
        result := result.(error := Some(Aborted()));
        return;
      }
      if t.expired {
        result := result.(error := Some(Deadline()));
        return;
      }
      if t.acquire.Some? {
        result := result.(error := t.acquire);
        return;
      }
      if t.threw.Some? {
        result := result.(error := t.threw);
        return;
      }
      result := ClientResult(t.path);
      attempts := attempts + [t];
      assert attempt == 0 ==> attempts == [t];
      if t.stoppedAfter {
        result := result.(error := Some(Aborted()));
        return;
      }
      if attempt != 0 || !CanRetry(result, m, t.reused, managed) {
        return;
      }
      attempt := attempt + 1;
    }
  }

  // ---------------------------------------------------------------- what the caller gets

  /** What an attempt that is made hands back, when it is the last one. */
  function Final(t: Turn): Result {
    var r := ClientResult(t.path);
    if t.stoppedAfter then r.(error := Some(NetError(OperationAborted, None))) else r
  }

  /** The result of a turn that never reaches the client: its blocking error, and nothing was sent. */
  ghost predicate IsTurnedBack(t: Turn, r: Result) {
    && r.status == 0 && r.body == [] && r.trailers == [] && r.disposition == NotSent && r.error.Some?
    && (t.stopped || t.cancelled ==> r.error == Some(NetError(OperationAborted, None)))
    && (!t.stopped && !t.cancelled && t.expired ==> r.error == Some(NetError(TimedOut, None)))
    && (!t.stopped && !t.cancelled && !t.expired ==>
          r.error == (if t.acquire.Some? then t.acquire else t.threw))
  }

  ghost predicate Passes(t: Turn) {
    !t.stopped && !t.cancelled && !t.expired && t.acquire.None? && t.threw.None?
  }

  /** The first attempt ends the request, or a second turn follows. */
  ghost predicate GoesOn(m: Method, managed: bool, t: Turn) {
    !t.stoppedAfter && CanRetry(ClientResult(t.path), m, t.reused, managed)
  }

  /**
   The caller gets the result of the last turn: of the second whenever there is one, and otherwise of the first;
   a turn that is turned back gives its own error and says that nothing was sent.
   */
  lemma LastTurnDecides(m: Method, managed: bool, turns: seq<Turn>)
    requires |turns| == 2
    ensures var (r, attempts) := Outcome(m, managed, turns, 0);
      && (!Passes(turns[0]) ==> IsTurnedBack(turns[0], r) && attempts == [])
      && (Passes(turns[0]) && !GoesOn(m, managed, turns[0]) ==> r == Final(turns[0]) && attempts == [turns[0]])
      && (Passes(turns[0]) && GoesOn(m, managed, turns[0]) && !Passes(turns[1]) ==>
            IsTurnedBack(turns[1], r) && attempts == [turns[0]])
      && (Passes(turns[0]) && GoesOn(m, managed, turns[0]) && Passes(turns[1]) ==>
            r == Final(turns[1]) && attempts == [turns[0], turns[1]])
  {
    hide CanRetry, ClientResult;
    var t := turns[1];
    var second := Outcome(m, managed, turns, 1);
    assert second == if Blocked(t).Some? then (Blank().(error := Blocked(t)), []) else (Final(t), [t]);
    assert [turns[0]] + [] == [turns[0]];
    assert [turns[0]] + [t] == [turns[0], t];
  }

  /** With two attempts made, the caller never sees the first one's result. */
  lemma SecondResultCounts(m: Method, managed: bool, turns: seq<Turn>)
    requires |turns| == 2 && |Outcome(m, managed, turns, 0).1| == 2
    ensures var r := Outcome(m, managed, turns, 0).0;
      && r.status == ClientResult(turns[1].path).status && r.body == ClientResult(turns[1].path).body
      && (!turns[1].stoppedAfter ==> r == ClientResult(turns[1].path))
      && (turns[1].stoppedAfter ==> r.error == Some(NetError(OperationAborted, None)))
  {
    LastTurnDecides(m, managed, turns);
    hide Outcome, CanRetry, ClientResult;
  }

  // ---------------------------------------------------------------- the retry rule

  /** The errors of a connection that went away under the request. */
  ghost predicate ConnectionLost(code: ErrorCode) {
    code in {
      Eof, ConnectionReset, ConnectionRefused, ConnectionAborted, NetworkUnreachable, HostUnreachable, BrokenPipe
    }
  }

  ghost predicate RefusedStream(r: Result) {
    && r.error.Some? && r.error.value.code == Http2StreamError
    && exists id :: id > 0 && r.error.value.http2 == Some(Http2Info(7, id))
  }

  ghost predicate GoneAway(r: Result) {
    && r.error.Some? && r.error.value.code == Http2ConnectionError
    && exists code :: r.error.value.http2 == Some(Http2Info(code, 0))
  }

  /**
   The rule: an idempotent method, and a lost connection before anything was sent, or a lost reused HTTP/1
   connection without a status, or an HTTP/2 stream that was refused or left behind by GOAWAY.
   */
  lemma RetryIff(r: Result, m: Method, reused: bool, managed: bool)
    ensures CanRetry(r, m, reused, managed) <==>
      && m in {Get, Head, Put, Delete, Options} && r.error.Some?
      && (|| (managed && r.disposition == NotSent && ConnectionLost(r.error.value.code))
          || (r.protocol == Http1 && reused && r.status == 0 && ConnectionLost(r.error.value.code))
          || (r.protocol == Http2 && r.disposition == NotProcessed && (RefusedStream(r) || GoneAway(r))))
  {
    if r.error.Some? && r.error.value.http2.Some? {
      var info := r.error.value.http2.value;
      assert info == Http2Info(info.code, info.streamId);
    }
  }

  lemma AttemptsAreFew(m: Method, managed: bool, turns: seq<Turn>)
    requires |turns| == 2
    ensures var attempts := Outcome(m, managed, turns, 0).1;
      && |attempts| <= 2
      && (forall i :: 0 <= i < |attempts| ==> attempts[i] == turns[i])
      && (!Idempotent(m) ==> |attempts| <= 1)
      && (|attempts| == 2 ==> CanRetry(ClientResult(turns[0].path), m, turns[0].reused, managed))
  {
    var (_, more) := Outcome(m, managed, turns, 1);
    assert |more| <= 1;
  }

  /** A retry over HTTP/1 after bytes may have gone out: the one case the rule accepts without evidence. */
  predicate Gamble(t: Turn) {
    && t.path.Http1Exchange? && t.reused && t.path.status == 0
    && t.path.error1.Some? && Transient(t.path.error1.value.code)
  }

  /**
   A retry means that the first attempt was not processed, or that it was an HTTP/1 exchange on a reused
   connection.
   */
  lemma RetryHasEvidence(m: Method, managed: bool, t: Turn)
    requires Possible(t.path) && CanRetry(ClientResult(t.path), m, t.reused, managed)
    ensures Gamble(t) || !Processed(t.path)
  {
    var r := ClientResult(t.path);
    if r.disposition != PossiblyProcessed {
      DispositionIsTrue(t.path);
    } else {
      ProtocolIsTrue(t.path);
    }
  }

  lemma GambleIsActed(t: Turn)
    requires Gamble(t)
    ensures Processed(t.path) <==> t.path.acted
  {
  }

  function ProcessedCount(attempts: seq<Turn>): nat {
    if attempts == [] then 0 else (if Processed(attempts[0].path) then 1 else 0) + ProcessedCount(attempts[1..])
  }

  /**
   There is a second attempt exactly when nothing blocks either, no stop comes in between, and the rule accepts
   the first result.
   */
  predicate TriesAgain(m: Method, managed: bool, turns: seq<Turn>)
    requires |turns| == 2
  {
    && Blocked(turns[0]).None? && !turns[0].stoppedAfter && Blocked(turns[1]).None?
    && CanRetry(ClientResult(turns[0].path), m, turns[0].reused, managed)
  }

  lemma SecondAttemptIff(m: Method, managed: bool, turns: seq<Turn>)
    requires |turns| == 2
    ensures |Outcome(m, managed, turns, 0).1| == 2 <==> TriesAgain(m, managed, turns)
  {
    hide CanRetry, ClientResult;
    var (_, more) := Outcome(m, managed, turns, 1);
    assert |more| == if Blocked(turns[1]).None? then 1 else 0;
  }

  lemma GambleIsAccepted(m: Method, managed: bool, t: Turn)
    requires Gamble(t)
    ensures CanRetry(ClientResult(t.path), m, t.reused, managed) <==> Idempotent(m)
  {
  }

  /**
   The request is processed more than once exactly when it is idempotent, nothing stops it, its first attempt was
   a gamble, and the peer acted on both.
   */
  lemma AtMostOnceProcessed(m: Method, managed: bool, turns: seq<Turn>)
    requires |turns| == 2 && forall i :: 0 <= i < 2 ==> Possible(turns[i].path)
    ensures ProcessedCount(Outcome(m, managed, turns, 0).1) > 1 <==>
      && Idempotent(m) && Gamble(turns[0]) && turns[0].path.acted && Processed(turns[1].path)
      && Blocked(turns[0]).None? && !turns[0].stoppedAfter && Blocked(turns[1]).None?
  {
    hide Processed, Possible, CanRetry, Blocked;
    AttemptsAreFew(m, managed, turns);
    SecondAttemptIff(m, managed, turns);
    var attempts := Outcome(m, managed, turns, 0).1;
    if Gamble(turns[0]) {
      GambleIsAccepted(m, managed, turns[0]);
      GambleIsActed(turns[0]);
    }
    if |attempts| == 2 {
      RetryHasEvidence(m, managed, turns[0]);
      assert attempts[1..] == [turns[1]];
      CountOne(turns[1]);
    } else if |attempts| == 1 {
      assert attempts == [turns[0]];
      CountOne(turns[0]);
    }
  }

  lemma CountOne(t: Turn)
    ensures ProcessedCount([t]) == if Processed(t.path) then 1 else 0
  {
    assert [t][1..] == [];
  }

  /** The exception is real: an idempotent request on a reused HTTP/1 connection that breaks after the peer acted. */
  lemma GambleCanLose() returns (turns: seq<Turn>)
    ensures |turns| == 2 && forall i :: 0 <= i < 2 ==> Possible(turns[i].path)
    ensures ProcessedCount(Outcome(Put, true, turns, 0).1) == 2
  {
    var lost := Turn(false, false, false, None, None, true,
                     Http1Exchange(Some(NetError(ConnectionReset, None)), 0, [], true), false);
    var done := Turn(false, false, false, None, None, false, Http1Exchange(None, 200, [], true), false);
    turns := [lost, done];
    assert Outcome(Put, true, turns, 1).1 == [done];
    assert Outcome(Put, true, turns, 0).1 == [lost] + [done];
    assert ([lost] + [done])[1..] == [done] && [done][1..] == [];
    assert ProcessedCount([done]) == 1;
  }
}
