/**
 The HTTP/2 client session: per-stream results, the evidence that a stream was not
 processed (REFUSED_STREAM, GOAWAY), and the shutdown of a connection. Every
 callback and every stretch of a request coroutine between two suspensions is one
 event. The peer is part of the state, constrained only by sections 6.8 and 8.7 of
 RFC 9113: it never processes a stream that it refused or left above a GOAWAY.
 */
module Http2Session {
  import opened Base
  import opened HttpTypes

  datatype Context = Context(
    result: Result,
    responseReady: bool,
    resetReceived: bool,
    streamError: Option<NetError>)   // the error held by the underlying stream object

  datatype Session = Session(
    contexts: map<nat, Context>,     // by stream id; a request keeps its context after the session drops it
    live: set<nat>,                  // the ids still registered with the session
    error: Option<NetError>,
    goaway: bool,
    goawayError: Option<NetError>,
    lastStreamId: nat,
    settingsSeen: bool,
    lastId: nat,                     // the last stream id handed out
    unsentIds: set<nat>,             // ids whose request was reported as not sent
    submitting: Option<nat>,         // the id of a request in the middle of being submitted
    output: set<nat>,                // ids whose request still waits for the writer
    written: set<nat>,               // ids whose request reached the socket
    returned: map<nat, Result>,      // results handed back to callers
    peer: Peer)

  datatype Peer = Peer(
    refused: set<nat>,               // streams it reset with REFUSED_STREAM
    goaways: set<nat>,               // last-stream-ids of the GOAWAY frames it sent
    processed: set<nat>)             // streams it acted on

  /** What the environment decides in each event; `se` and `ses` are the stream objects' errors afterwards. */
  datatype Event =
    | Queued(id: nat)                                      // submission starts: the headers are handed to the output
    | Withdrawn(id: nat)                                   // submission failed, or the deadline passed: taken out again
    | Submitted(id: nat)
    | SubmittedDead(id: nat)                               // submitted, but the stream object had already ended
    | WriterRuns(id: nat)
    | PeerProcesses(id: nat)
    | PeerRefuses(id: nat)
    | PeerGoesAway(last: nat)
    | OnReceive(id: nat, se: Option<NetError>, status: nat)
    | OnEndStream(id: nat, se: Option<NetError>, complete: bool, publish: Option<NetError>, body: seq<char>,
      trailers: seq<char>)
    | OnReset(id: nat)
    | OnStreamClose(id: nat, code: nat, se: Option<NetError>)
    | OnSettings
    | OnGoaway(last: nat, code: nat)
    | OnError(err: NetError, ses: map<nat, NetError>)
    | OnFailure(failure: Option<NetError>, ses: map<nat, NetError>)
    | BodyWaitEnds(id: nat, wait: Option<NetError>, protocolOpen: bool)
    | RequestThrows(id: nat, thrown: NetError, protocolOpen: bool)

  function Init(): Session {
    Session(map[], {}, None, false, None, MAX_STREAM_ID, false, 0, {}, None, {}, {}, map[], Peer({}, {}, {}))
  }

  function FreshContext(): Context {
    Context(Result(None, 0, [], [], Http2, PossiblyProcessed), false, false, None)
  }

  function DeadContext(): Context {
    var c := FreshContext();
    c.(result := c.result.(error := Some(Aborted())))
  }

  // ---------------------------------------------------------------- pieces of the callbacks

  function Lookup(ses: map<nat, NetError>, id: nat): Option<NetError> {
    if id in ses then Some(ses[id]) else None
  }

  function WithStreamError(c: Context, se: Option<NetError>): Context {
    if c.streamError.Some? then c else c.(streamError := se)
  }

  function CaptureError(c: Context): Context {
    if !c.responseReady && c.result.error.None? && c.streamError.Some?
    then c.(result := c.result.(error := c.streamError)) else c
  }

  function WithStatus(c: Context, status: nat): Context {
    if c.result.status == 0 then c.(result := c.result.(status := status)) else c
  }

  function EndStream(
    c: Context, complete: bool, publish: Option<NetError>, body: seq<char>, trailers: seq<char>): Context {
    if c.responseReady || c.result.error.Some? || !complete then c
    else if publish.Some? then c.(result := c.result.(error := publish))
    else c.(result := c.result.(body := body, trailers := trailers), responseReady := true)
  }

  function CloseStream(c: Context, id: nat, code: nat): Context {
    if c.resetReceived && code == NO_ERROR && !c.responseReady && c.result.error.None?
    then c.(result := c.result.(error := Some(NetError(Http2StreamError, Some(Http2Info(code, id)))))) else c
  }

  function StreamErrored(c: Context, err: NetError): Context {
    if c.responseReady then c
    else
      var r := if err.http2.Some? && err.http2.value.code == REFUSED_STREAM
               then c.result.(disposition := NotProcessed) else c.result;
      c.(result := if r.error.None? then r.(error := Some(err)) else r)
  }

  function GoawayError(code: nat): NetError {
    NetError(Http2ConnectionError, Some(Http2Info(code, 0)))
  }

  predicate RefusedByGoaway(s: Session, last: nat, id: nat) {
    id in s.live && id in s.contexts && id > last && !s.contexts[id].responseReady
  }

  function RefuseContext(c: Context, err: NetError): Context {
    WithStreamError(c.(result := c.result.(disposition := NotProcessed, error := Some(err))), Some(err))
  }

  /** The part of a request after its body wait; the wait's own error overrides a finished response. */
  function AfterWait(c: Context, wait: Option<NetError>): Context {
    var c := if c.responseReady && wait.Some?
             then c.(responseReady := false, result := c.result.(error := wait, body := [], trailers := [])) else c;
    if c.responseReady then c
    else
      var c := CaptureError(c);
      if c.result.error.Some? then c
      else c.(result := c.result.(error := Some(if wait.Some? then wait.value else NetError(Http2StreamError, None))))
  }

  function FailContext(c: Context, ses: map<nat, NetError>, id: nat): Context {
    CaptureError(WithStreamError(c, Lookup(ses, id)))
  }

  function AfterThrow(c: Context, thrown: NetError): Context {
    if !c.responseReady && c.result.error.None? then c.(result := c.result.(error := Some(thrown))) else c
  }

  // ---------------------------------------------------------------- the step function

  predicate IsStreamError(err: NetError) {
    err.http2.Some? && err.http2.value.streamId > 0
  }

  /** What an event does to a context that exists already; the session reaches only the live ones. */
  function Touch(s: Session, e: Event, id: nat): Context
    requires id in s.contexts
  {
    var c := s.contexts[id];
    var mine := id in s.live;
    match e
    case OnReceive(x, se, status) =>
      if x == id && mine then CaptureError(WithStatus(WithStreamError(c, se), status)) else c
    case OnEndStream(x, se, complete, publish, body, trailers) =>
      if x == id && mine then EndStream(CaptureError(WithStreamError(c, se)), complete, publish, body, trailers) else c
    case OnReset(x) =>
      if x == id && mine then c.(resetReceived := true) else c
    case OnStreamClose(x, code, se) =>
      if x == id && mine then CaptureError(WithStreamError(CloseStream(c, id, code), se)) else c
    case OnGoaway(last, code) =>
      if RefusedByGoaway(s, Min(s.lastStreamId, last), id) then RefuseContext(c, GoawayError(code)) else c
    case OnError(err, ses) =>
      if IsStreamError(err) then
        if err.http2.value.streamId == id && mine then WithStreamError(StreamErrored(c, err), Lookup(ses, id)) else c
      else if s.error.None? && mine then FailContext(c, ses, id) else c
    case OnFailure(_, ses) =>
      if s.error.None? && mine then FailContext(c, ses, id) else c
    case BodyWaitEnds(x, wait, _) => if x == id then AfterWait(c, wait) else c
    case RequestThrows(x, thrown, _) => if x == id then AfterThrow(c, thrown) else c
    case _ => c
  }

  function Fails(s: Session, failure: Option<NetError>): Session {
    if s.error.Some? then s
    else s.(error := Some(if failure.Some? then failure.value else Aborted()), live := {})
  }

  /** A request is over: it gives up what is unfinished or still uploading, and its result is handed back. */
  function Finish(s: Session, e: Event, id: nat, protocolOpen: bool): Session
    requires id in s.contexts
  {
    var c := Touch(s, e, id);
    var t := s.(returned := s.returned[id := c.result]);
    if c.responseReady && !protocolOpen then t else t.(live := t.live - {id}, output := t.output - {id})
  }

  /** What an event does to everything but the contexts. */
  function Rest(s: Session, e: Event): Session {
    match e
    case Queued(id) => s.(lastId := id, output := s.output + {id}, submitting := Some(id))
    case Withdrawn(id) => s.(output := s.output - {id}, unsentIds := s.unsentIds + {id}, submitting := None)
    case Submitted(id) => s.(live := s.live + {id}, submitting := None)
    case SubmittedDead(id) =>
      s.(output := s.output - {id}, submitting := None, returned := s.returned[id := DeadContext().result])
    case WriterRuns(id) => s.(output := s.output - {id}, written := s.written + {id})
    case PeerProcesses(id) => s.(peer := s.peer.(processed := s.peer.processed + {id}))
    case PeerRefuses(id) => s.(peer := s.peer.(refused := s.peer.refused + {id}))
    case PeerGoesAway(last) => s.(peer := s.peer.(goaways := s.peer.goaways + {last}))
    case OnReset(id) => s.(output := s.output - {id})
    case OnStreamClose(id, _, _) => s.(live := s.live - {id})
    case OnSettings => s.(settingsSeen := true)
    case OnGoaway(last, code) =>
      var newLast := Min(s.lastStreamId, last);
      var gone := set id | id in s.live && RefusedByGoaway(s, newLast, id);
      s.(goaway := true, lastStreamId := newLast, goawayError := Some(GoawayError(code)),
         live := s.live - gone, output := s.output - gone)
    case OnError(err, _) => if IsStreamError(err) then s else Fails(s, Some(err))
    case OnFailure(failure, _) => Fails(s, failure)
    case BodyWaitEnds(id, _, open) => if id in s.contexts then Finish(s, e, id, open) else s
    case RequestThrows(id, _, open) => if id in s.contexts then Finish(s, e, id, open) else s
    case _ => s
  }

  function NewContext(e: Event): map<nat, Context> {
    match e
    case Submitted(id) => map[id := FreshContext()]
    case SubmittedDead(id) => map[id := DeadContext()]
    case _ => map[]
  }

  function Step(s: Session, e: Event): Session {
    Rest(s, e).(contexts := (map id | id in s.contexts :: Touch(s, e, id)) + NewContext(e))
  }

  // ---------------------------------------------------------------- what may happen

  /** The peer has said that it will not process stream `id`. */
  ghost predicate Evidence(p: Peer, id: nat) {
    id in p.refused || exists last :: last in p.goaways && last < id
  }

  ghost predicate IsPeerRefusal(err: NetError) {
    err.http2.Some? && err.http2.value.streamId > 0 && err.http2.value.code == REFUSED_STREAM
  }

  ghost predicate Waiting(s: Session, id: nat) {
    id in s.contexts && id !in s.returned
  }

  /**
   Submitting a request does not suspend: until it is decided, nothing else runs on the event loop; only the peer
   may act.
   */
  predicate MayInterrupt(e: Event) {
    e.Withdrawn? || e.Submitted? || e.SubmittedDead? || e.PeerProcesses? || e.PeerRefuses? || e.PeerGoesAway?
  }

  /**
   The only assumptions: one event loop, fresh increasing stream ids, an honest peer, callbacks that report
   frames it sent.
   */
  ghost predicate Enabled(s: Session, e: Event) {
    (s.submitting.Some? ==> MayInterrupt(e)) && Possible(s, e)
  }

  ghost predicate Possible(s: Session, e: Event) {
    match e
    case Queued(id) => s.lastId < id <= MAX_STREAM_ID
    case Withdrawn(id) => s.submitting == Some(id)
    case Submitted(id) => s.submitting == Some(id)
    case SubmittedDead(id) => s.submitting == Some(id)
    case WriterRuns(id) => id in s.output
    case PeerProcesses(id) => id in s.written && !Evidence(s.peer, id)
    case PeerRefuses(id) => id !in s.peer.processed
    case PeerGoesAway(last) => forall id :: id in s.peer.processed ==> id <= last
    case OnGoaway(last, _) => last in s.peer.goaways
    case OnError(err, _) => IsPeerRefusal(err) ==> Evidence(s.peer, err.http2.value.streamId)
    case BodyWaitEnds(id, _, _) => Waiting(s, id)
    case RequestThrows(id, _, _) => Waiting(s, id)
    case _ => true
  }

  ghost predicate IsRun(events: seq<Event>, states: seq<Session>) {
    && |states| == |events| + 1
    && states[0] == Init()
    && forall i :: 0 <= i < |events| ==> Enabled(states[i], events[i]) && states[i + 1] == Step(states[i], events[i])
  }

  // ---------------------------------------------------------------- evidence is never wrong

  /** A result may say "not processed" only with evidence, and never says "not sent". */
  ghost predicate ResultOk(p: Peer, id: nat, r: Result) {
    && r.protocol == Http2 && r.disposition != NotSent
    && (r.disposition == NotProcessed ==> Evidence(p, id))
  }

  /** Handed to the output, and no further. */
  ghost predicate Undecided(s: Session, id: nat) {
    id <= s.lastId && id in s.output && id !in s.contexts && id !in s.unsentIds
  }

  ghost predicate Registers(s: Session) {
    && s.lastStreamId <= MAX_STREAM_ID && s.lastId <= MAX_STREAM_ID
    && (forall id :: id in s.contexts ==> id <= s.lastId)
    && (forall id :: id in s.unsentIds ==> id <= s.lastId && id !in s.contexts)
    && (s.submitting.Some? ==> Undecided(s, s.submitting.value))
    && s.live <= s.contexts.Keys && (forall id :: id in s.output ==> id in s.contexts || s.submitting == Some(id))
    && s.written <= s.contexts.Keys && s.returned.Keys <= s.contexts.Keys
    && s.peer.processed <= s.written
  }

  ghost predicate Truthful(s: Session) {
    && (forall id :: id in s.peer.processed ==> !Evidence(s.peer, id))
    && (forall id: nat :: s.lastStreamId < id <= MAX_STREAM_ID ==> Evidence(s.peer, id))
    && (forall id :: id in s.contexts ==> ResultOk(s.peer, id, s.contexts[id].result))
    && (forall id :: id in s.returned ==> ResultOk(s.peer, id, s.returned[id]))
  }

  ghost predicate Inv(s: Session) {
    Registers(s) && Truthful(s)
  }

  /** The part of a result that a caller sees once the response is complete. */
  predicate SameAnswer(b: Result, c: Result) {
    b.error == c.error && b.disposition == c.disposition && b.body == c.body && b.trailers == c.trailers
  }

  ghost predicate OwnWaitFails(e: Event, id: nat) {
    e.BodyWaitEnds? && e.id == id && e.wait.Some?
  }

  /** A change that keeps a complete answer and the disposition. */
  ghost predicate Gentle(b: Context, c: Context) {
    && c.result.protocol == b.result.protocol
    && c.result.disposition == b.result.disposition
    && (b.responseReady ==> c.responseReady && SameAnswer(b.result, c.result))
  }

  /** What one event may do to one context. */
  ghost predicate Effect(s: Session, e: Event, id: nat, b: Context, c: Context) {
    && c.result.protocol == b.result.protocol
    && (c.result.disposition == b.result.disposition || (c.result.disposition == NotProcessed && Evidence(s.peer, id)))
    && (b.responseReady && !OwnWaitFails(e, id) ==> c.responseReady && SameAnswer(b.result, c.result))
  }

  lemma CallbackIsGentle(s: Session, e: Event, id: nat)
    requires id in s.contexts && !e.OnGoaway? && !e.OnError? && !OwnWaitFails(e, id)
    ensures Gentle(s.contexts[id], Touch(s, e, id))
  {
  }

  lemma ContextEffect(s: Session, e: Event, id: nat)
    requires id in s.contexts && Enabled(s, e)
    requires e.OnGoaway? && id > Min(s.lastStreamId, e.last) ==> Evidence(s.peer, id)
    ensures Effect(s, e, id, s.contexts[id], Touch(s, e, id))
  {
    if !e.OnGoaway? && !e.OnError? && !OwnWaitFails(e, id) {
      CallbackIsGentle(s, e, id);
    }
  }

  lemma EvidenceGrows(s: Session, e: Event, id: nat)
    requires Evidence(s.peer, id)
    ensures Evidence(Step(s, e).peer, id)
  {
    if e.PeerGoesAway? && id !in s.peer.refused {
      var last :| last in s.peer.goaways && last < id;
      assert last in Step(s, e).peer.goaways;
    }
  }

  predicate HandsOutId(e: Event) {
    e.Queued? || e.Withdrawn? || e.Submitted? || e.SubmittedDead?
  }

  /** What an event that hands out no id may do to the registers. */
  ghost predicate Shrinks(s: Session, e: Event, r: Session) {
    && r.lastId == s.lastId && r.unsentIds == s.unsentIds && r.lastStreamId <= s.lastStreamId
    && r.live <= s.live && r.output <= s.output && r.submitting == s.submitting
    && (MayInterrupt(e) ==> r.output == s.output)
    && r.returned.Keys <= s.returned.Keys + s.contexts.Keys
    && (!e.WriterRuns? ==> r.written == s.written)
    && (!e.PeerProcesses? ==> r.peer.processed == s.peer.processed)
  }

  lemma FinishShrinks(s: Session, e: Event, id: nat, protocolOpen: bool)
    requires id in s.contexts && (e.BodyWaitEnds? || e.RequestThrows?)
    ensures Shrinks(s, e, Finish(s, e, id, protocolOpen))
  {
    hide Touch;
  }

  lemma RestShrinks(s: Session, e: Event)
    requires !HandsOutId(e)
    ensures Shrinks(s, e, Rest(s, e))
  {
    hide Touch, Finish;
    if (e.BodyWaitEnds? || e.RequestThrows?) && e.id in s.contexts {
      FinishShrinks(s, e, e.id, e.protocolOpen);
    }
  }

  lemma StepIs(s: Session, e: Event)
    ensures Step(s, e) == Rest(s, e).(contexts := Step(s, e).contexts)
    ensures Step(s, e).contexts.Keys == s.contexts.Keys + NewContext(e).Keys
  {
    hide Rest, Touch;
  }

  lemma RegistersQueue(s: Session, e: Event)
    requires Registers(s) && Enabled(s, e) && (e.Queued? || e.Withdrawn?)
    ensures Registers(Step(s, e))
  {
    hide Touch, Step, FreshContext, DeadContext;
    StepIs(s, e);
  }

  lemma RegistersSubmit(s: Session, e: Event)
    requires Registers(s) && Enabled(s, e) && (e.Submitted? || e.SubmittedDead?)
    ensures Registers(Step(s, e))
  {
    hide Touch, Step, FreshContext, DeadContext;
    StepIs(s, e);
  }

  lemma RegistersStep(s: Session, e: Event)
    requires Registers(s) && Enabled(s, e)
    ensures Registers(Step(s, e))
  {
    hide Touch;
    if e.Queued? || e.Withdrawn? {
      RegistersQueue(s, e);
    } else if HandsOutId(e) {
      RegistersSubmit(s, e);
    } else {
      RestShrinks(s, e);
      StepIs(s, e);
      hide Step;
      var t := Step(s, e);
      assert t.contexts.Keys == s.contexts.Keys;
      if e.WriterRuns? || e.PeerProcesses? {
        assert t.peer.processed <= t.written <= s.contexts.Keys;
      } else {
        hide Rest;
      }
    }
  }

  lemma TruthfulStep(s: Session, e: Event)
    requires Inv(s) && Enabled(s, e)
    ensures Truthful(Step(s, e))
  {
    var t := Step(s, e);
    forall id | id in t.contexts ensures ResultOk(t.peer, id, t.contexts[id].result) {
      TruthfulContext(s, e, id);
    }
    forall id | id in t.returned ensures ResultOk(t.peer, id, t.returned[id]) {
      TruthfulReturned(s, e, id);
    }
    forall id: nat | t.lastStreamId < id <= MAX_STREAM_ID ensures Evidence(t.peer, id) {
      TruthfulLast(s, e, id);
    }
    forall id | id in t.peer.processed ensures !Evidence(t.peer, id) {
      TruthfulPeer(s, e, id);
    }
  }

  lemma TruthfulLast(s: Session, e: Event, id: nat)
    requires Inv(s) && Enabled(s, e) && Step(s, e).lastStreamId < id <= MAX_STREAM_ID
    ensures Evidence(Step(s, e).peer, id)
  {
    LastIsEvident(s, e, id);
    hide Touch, Inv, Step;
    EvidenceGrows(s, e, id);
  }

  lemma LastIsEvident(s: Session, e: Event, id: nat)
    requires Truthful(s) && Enabled(s, e) && Step(s, e).lastStreamId < id <= MAX_STREAM_ID
    ensures Evidence(s.peer, id)
  {
    hide Touch, Finish, ResultOk;
    StepIs(s, e);
    hide Step;
    if !HandsOutId(e) && !e.OnGoaway? {
      LastKept(s, e);
      hide Rest;
    }
  }

  lemma LastKept(s: Session, e: Event)
    requires !e.OnGoaway?
    ensures Rest(s, e).lastStreamId == s.lastStreamId
  {
    hide Touch;
  }

  lemma TruthfulPeer(s: Session, e: Event, id: nat)
    requires Inv(s) && Enabled(s, e) && id in Step(s, e).peer.processed
    ensures !Evidence(Step(s, e).peer, id)
  {
    hide Touch;
    if !e.PeerProcesses? && !e.PeerRefuses? && !e.PeerGoesAway? {
      PeerOnlyMovesItself(s, e);
      hide Rest;
    }
  }

  lemma PeerOnlyMovesItself(s: Session, e: Event)
    requires !e.PeerProcesses? && !e.PeerRefuses? && !e.PeerGoesAway?
    ensures Rest(s, e).peer == s.peer
  {
    hide Touch;
  }

  lemma TruthfulContext(s: Session, e: Event, id: nat)
    requires Inv(s) && Enabled(s, e) && id in Step(s, e).contexts
    ensures ResultOk(Step(s, e).peer, id, Step(s, e).contexts[id].result)
  {
    if id in s.contexts && id !in NewContext(e) {
      assert e.OnGoaway? && id > Min(s.lastStreamId, e.last) ==> Evidence(s.peer, id);
      ContextEffect(s, e, id);
      hide Touch;
      if Evidence(s.peer, id) {
        EvidenceGrows(s, e, id);
      }
    }
  }

  lemma ReturnedIsResult(s: Session, e: Event, id: nat)
    requires id in Rest(s, e).returned
    ensures var r := Rest(s, e).returned[id];
      || (id in s.returned && r == s.returned[id])
      || (id in s.contexts && r == Touch(s, e, id).result && (e.BodyWaitEnds? || e.RequestThrows?))
      || (e.SubmittedDead? && e.id == id && r == DeadContext().result)
  {
  }

  lemma TruthfulReturned(s: Session, e: Event, id: nat)
    requires Inv(s) && Enabled(s, e) && id in Step(s, e).returned
    ensures ResultOk(Step(s, e).peer, id, Step(s, e).returned[id])
  {
    hide Rest, Touch, Registers;
    ReturnedIsResult(s, e, id);
    if id in s.contexts {
      assert id in Step(s, e).contexts && NewContext(e) == map[] ==> Step(s, e).contexts[id] == Touch(s, e, id);
      TruthfulContext(s, e, id);
    }
    hide Step;
    if Evidence(s.peer, id) {
      EvidenceGrows(s, e, id);
    }
    StepIs(s, e);
  }

  lemma {:induction false} RunInv(events: seq<Event>, states: seq<Session>, i: nat)
    requires IsRun(events, states) && i < |states|
    ensures Inv(states[i])
  {
    hide Step, Enabled;
    if i > 0 {
      RunInv(events, states, i - 1);
      RegistersStep(states[i - 1], events[i - 1]);
      TruthfulStep(states[i - 1], events[i - 1]);
    }
  }

  // ---------------------------------------------------------------- what holds over whole runs

  lemma {:induction false} EvidenceStays(events: seq<Event>, states: seq<Session>, i: nat, j: nat, id: nat)
    requires IsRun(events, states) && i <= j < |states|
    requires Evidence(states[i].peer, id)
    ensures Evidence(states[j].peer, id)
  {
    hide Step, Enabled;
    if i < j {
      EvidenceStays(events, states, i, j - 1, id);
      EvidenceGrows(states[j - 1], events[j - 1], id);
    }
  }

  /** A stream whose result says "not processed" is not processed, now or at any later time. */
  lemma NotProcessedIsTrue(events: seq<Event>, states: seq<Session>, i: nat, j: nat, id: nat)
    requires IsRun(events, states) && i <= j < |states|
    requires id in states[i].returned && states[i].returned[id].disposition == NotProcessed
    ensures id !in states[j].peer.processed
  {
    RunInv(events, states, i);
    EvidenceStays(events, states, i, j, id);
    RunInv(events, states, j);
  }

  lemma StepKeeps(s: Session, e: Event)
    ensures s.unsentIds <= Step(s, e).unsentIds && Step(s, e).lastStreamId <= s.lastStreamId
  {
    if !HandsOutId(e) {
      RestShrinks(s, e);
      hide Rest, Touch;
    }
  }

  lemma {:induction false} UnsentStays(events: seq<Event>, states: seq<Session>, i: nat, j: nat, id: nat)
    requires IsRun(events, states) && i <= j < |states| && id in states[i].unsentIds
    ensures id in states[j].unsentIds
  {
    hide Step, Enabled;
    if i < j {
      UnsentStays(events, states, i, j - 1, id);
      StepKeeps(states[j - 1], events[j - 1]);
    }
  }

  /** A request reported as not sent after it got a stream id never reaches the peer. */
  lemma NotSentIsTrue(events: seq<Event>, states: seq<Session>, i: nat, j: nat, id: nat)
    requires IsRun(events, states) && i <= j < |states| && id in states[i].unsentIds
    ensures id !in states[j].written && id !in states[j].peer.processed
  {
    UnsentStays(events, states, i, j, id);
    RunInv(events, states, j);
  }

  /** No reset, GOAWAY, stream close or connection failure changes a complete answer; only its own body wait can. */
  lemma {:induction false} CompleteAnswerIsFinal(events: seq<Event>, states: seq<Session>, i: nat, j: nat, id: nat)
    requires IsRun(events, states) && i <= j < |states|
    requires id in states[i].contexts && states[i].contexts[id].responseReady
    requires forall k :: i <= k < j ==> !OwnWaitFails(events[k], id)
    ensures id in states[j].contexts && states[j].contexts[id].responseReady
    ensures SameAnswer(states[i].contexts[id].result, states[j].contexts[id].result)
  {
    hide Step, Enabled;
    if i < j {
      CompleteAnswerIsFinal(events, states, i, j - 1, id);
      RunInv(events, states, j - 1);
      AnswerKept(states[j - 1], events[j - 1], id);
    }
  }

  lemma AnswerKept(s: Session, e: Event, id: nat)
    requires Inv(s) && Enabled(s, e) && id in s.contexts && s.contexts[id].responseReady && !OwnWaitFails(e, id)
    ensures var t := Step(s, e);
      id in t.contexts && t.contexts[id].responseReady && SameAnswer(s.contexts[id].result, t.contexts[id].result)
  {
    assert id <= s.lastId <= MAX_STREAM_ID && id !in NewContext(e);
    assert e.OnGoaway? && id > Min(s.lastStreamId, e.last) ==> Evidence(s.peer, id);
    ContextEffect(s, e, id);
    hide Touch, Rest;
  }

  /** GOAWAY fails exactly the unfinished live streams above the smallest last-stream-id seen so far. */
  lemma GoawayIsExact(s: Session, last: nat, code: nat, id: nat)
    requires id in s.contexts
    ensures var t := Step(s, OnGoaway(last, code));
      && t.lastStreamId == Min(s.lastStreamId, last) <= s.lastStreamId
      && (id in s.live && id > t.lastStreamId && !s.contexts[id].responseReady ==>
            && t.contexts[id].result.disposition == NotProcessed
            && t.contexts[id].result.error == Some(GoawayError(code))
            && id !in t.live && id !in t.output)
      && (!(id in s.live && id > t.lastStreamId && !s.contexts[id].responseReady) ==>
            && t.contexts[id] == s.contexts[id]
            && (id in t.live <==> id in s.live) && (id in t.output <==> id in s.output))
  {
    var t := Step(s, OnGoaway(last, code));
    assert t.contexts[id] == Touch(s, OnGoaway(last, code), id);
  }

  /** A stream that is neither written nor waiting for the writer, with an id already handed out, is never written. */
  lemma {:induction false} NeverWritten(events: seq<Event>, states: seq<Session>, i: nat, j: nat, id: nat)
    requires IsRun(events, states) && i <= j < |states|
    requires id <= states[i].lastId && id !in states[i].output && id !in states[i].written
    ensures id <= states[j].lastId && id !in states[j].output && id !in states[j].written
  {
    hide Step, Enabled;
    if i < j {
      NeverWritten(events, states, i, j - 1, id);
      WriterStep(states[j - 1], events[j - 1], id);
    }
  }

  lemma WriterStep(s: Session, e: Event, id: nat)
    requires Enabled(s, e) && id <= s.lastId && id !in s.output && id !in s.written
    ensures var t := Step(s, e); id <= t.lastId && id !in t.output && id !in t.written
  {
    hide Touch;
    if !HandsOutId(e) && !e.WriterRuns? {
      RestShrinks(s, e);
      hide Rest;
    }
  }

  lemma {:induction false} NotProcessedStays(events: seq<Event>, states: seq<Session>, i: nat, j: nat, id: nat)
    requires IsRun(events, states) && i <= j < |states|
    requires id in states[i].contexts && states[i].contexts[id].result.disposition == NotProcessed
    ensures id in states[j].contexts && states[j].contexts[id].result.disposition == NotProcessed
  {
    hide Step, Enabled;
    if i < j {
      NotProcessedStays(events, states, i, j - 1, id);
      RunInv(events, states, j - 1);
      DispositionKept(states[j - 1], events[j - 1], id);
    }
  }

  lemma DispositionKept(s: Session, e: Event, id: nat)
    requires Inv(s) && Enabled(s, e) && id in s.contexts && s.contexts[id].result.disposition == NotProcessed
    ensures id in Step(s, e).contexts && Step(s, e).contexts[id].result.disposition == NotProcessed
  {
    TouchKeepsNotProcessed(s, e, id);
    hide Rest, Touch, Truthful;
    assert id !in NewContext(e);
  }

  lemma TouchKeepsNotProcessed(s: Session, e: Event, id: nat)
    requires id in s.contexts && s.contexts[id].result.disposition == NotProcessed
    ensures Touch(s, e, id).result.disposition == NotProcessed
  {
  }

  /**
   From a GOAWAY on, the unfinished streams above it say so for the rest of the run, are not written any more,
   and are never processed.
   */
  lemma GoawayIsForGood(events: seq<Event>, states: seq<Session>, i: nat, j: nat, id: nat)
    requires IsRun(events, states) && i < j < |states| && events[i].OnGoaway?
    requires RefusedByGoaway(states[i], Min(states[i].lastStreamId, events[i].last), id)
    ensures id in states[j].contexts && states[j].contexts[id].result.disposition == NotProcessed
    ensures id !in states[j].peer.processed
    ensures id !in states[i].written ==> id !in states[j].written
  {
    RunInv(events, states, i);
    RunInv(events, states, j);
    GoawayIsExact(states[i], events[i].last, events[i].code, id);
    NotProcessedStays(events, states, i + 1, j, id);
    if id !in states[i].written {
      NeverWritten(events, states, i + 1, j, id);
    }
    hide Step, Enabled;
  }

  lemma {:induction false} LastStreamIdNeverGrows(events: seq<Event>, states: seq<Session>, i: nat, j: nat)
    requires IsRun(events, states) && i <= j < |states|
    ensures states[j].lastStreamId <= states[i].lastStreamId
  {
    hide Step, Enabled;
    if i < j {
      LastStreamIdNeverGrows(events, states, i, j - 1);
      StepKeeps(states[j - 1], events[j - 1]);
    }
  }

  // ---------------------------------------------------------------- capacity offered to the pool

  datatype Capacity = Capacity(
    settingsSeen: bool, accepting: bool, localLimit: nat, peerLimit: nat, admitted: nat, available: nat)

  /** Streams and application tasks in use against the local and the peer's limits. */
  function SessionCapacity(s: Session, requestAllowed: bool, localLimit: nat, peerLimit: nat, maxTasks: nat,
                           streams: nat, tasks: nat): Capacity
  {
    var limit: nat := Min(localLimit, peerLimit);
    var accepting := s.settingsSeen && s.error.None? && !s.goaway && requestAllowed;
    var protocolFree: nat := if streams < limit then limit - streams else 0;
    var applicationFree: nat := if tasks < maxTasks then maxTasks - tasks else 0;
    Capacity(s.settingsSeen, accepting, localLimit, peerLimit, streams,
             if accepting then Min(protocolFree, applicationFree) else 0)
  }

  /** An offer never exceeds what is free, and a session that has failed or seen GOAWAY offers nothing. */
  predicate Offers(c: Capacity) {
    && (c.available > 0 ==> c.accepting && c.admitted + c.available <= Min(c.localLimit, c.peerLimit))
    && (c.accepting ==> c.settingsSeen)
  }

  lemma CapacityIsHonest(
    s: Session, requestAllowed: bool, localLimit: nat, peerLimit: nat, maxTasks: nat, streams: nat,
    tasks: nat)
    ensures Offers(SessionCapacity(s, requestAllowed, localLimit, peerLimit, maxTasks, streams, tasks))
    ensures s.error.Some? || s.goaway ==>
      SessionCapacity(s, requestAllowed, localLimit, peerLimit, maxTasks, streams, tasks).available == 0
  {
  }

  // ---------------------------------------------------------------- the callbacks as code

  /** The event concerns the single stream `id`. */
  predicate Targets(e: Event, id: nat) {
    match e
    case OnEndStream(x, _, _, _, _, _) => x == id
    case OnStreamClose(x, _, _) => x == id
    case OnError(err, _) => IsStreamError(err) && err.http2.value.streamId == id
    case BodyWaitEnds(x, _, _) => x == id
    case _ => false
  }

  lemma TouchesOne(s: Session, e: Event, id: nat)
    requires Targets(e, id)
    ensures var touched := if id in s.contexts then s.contexts[id := Touch(s, e, id)] else s.contexts;
      Step(s, e) == Rest(s, e).(contexts := touched)
  {
    hide Rest, CaptureError, WithStreamError, EndStream, CloseStream, StreamErrored, AfterWait;
    assert (map x | x in s.contexts :: Touch(s, e, x)) + NewContext(e) == map x | x in s.contexts :: Touch(s, e, x);
  }

  lemma GoawayStep(s: Session, last: nat, code: nat)
    ensures var newLast, err := Min(s.lastStreamId, last), GoawayError(code);
      var gone := set id | id in s.live && RefusedByGoaway(s, newLast, id);
      Step(s, OnGoaway(last, code)) ==
      s.(goaway := true, lastStreamId := newLast, goawayError := Some(err),
         live := s.live - gone, output := s.output - gone,
         contexts := map id | id in s.contexts ::
           if id in gone then RefuseContext(s.contexts[id], err) else s.contexts[id])
  {
  }

  lemma GoneIs(s: Session, last: nat)
    requires s.live <= s.contexts.Keys
    ensures (set id | id in s.live && RefusedByGoaway(s, last, id)) ==
      set id | id in s.live && id > last && !s.contexts[id].responseReady
  {
  }

  lemma FailStep(s: Session, failure: Option<NetError>, ses: map<nat, NetError>)
    ensures Step(s, OnFailure(failure, ses)) ==
      if s.error.Some? then s
      else s.(error := Some(if failure.Some? then failure.value else Aborted()), live := {},
              contexts := map id | id in s.contexts ::
                if id in s.live then FailContext(s.contexts[id], ses, id) else s.contexts[id])
  {
    hide FailContext;
  }

  lemma ConnectionErrorFails(s: Session, err: NetError, ses: map<nat, NetError>)
    requires !IsStreamError(err)
    ensures Step(s, OnError(err, ses)) == Step(s, OnFailure(Some(err), ses))
  {
    hide FailContext;
    var e, f := OnError(err, ses), OnFailure(Some(err), ses);
    assert (map id | id in s.contexts :: Touch(s, e, id)) == (map id | id in s.contexts :: Touch(s, f, id));
  }

  /** The two loops of the GOAWAY callback: fail the unfinished streams above `last`, and name them for cancellation. */
  method RefuseUnfinished(contexts: map<nat, Context>, live: set<nat>, last: nat, err: NetError)
    returns (updated: map<nat, Context>, refused: set<nat>)
    requires live <= contexts.Keys
    ensures refused == set id | id in live && id > last && !contexts[id].responseReady
    ensures updated == map id | id in contexts ::
      if id in refused then RefuseContext(contexts[id], err) else contexts[id]
  {
    hide RefuseContext;
    updated, refused := contexts, {};
    var todo := live;
    while todo != {}
      invariant todo <= live && updated.Keys == contexts.Keys
      invariant refused == set id | id in live - todo && id > last && !contexts[id].responseReady
      invariant forall id :: id in contexts ==>
        updated[id] == if id in refused then RefuseContext(contexts[id], err) else contexts[id]
      decreases |todo|
    {
      var id :| id in todo;
      todo := todo - {id};
      if id > last && !updated[id].responseReady {
        updated := updated[id := RefuseContext(updated[id], err)];
        refused := refused + {id};
      }
    }
  }

  method FailLive(
    contexts: map<nat, Context>, live: set<nat>, ses: map<nat, NetError>) returns (updated: map<nat, Context>)
    requires live <= contexts.Keys
    ensures updated == map id | id in contexts ::
      if id in live then FailContext(contexts[id], ses, id) else contexts[id]
  {
    hide FailContext;
    updated := contexts;
    var todo := live;
    while todo != {}
      invariant todo <= live && updated.Keys == contexts.Keys
      invariant forall id :: id in contexts ==>
        updated[id] == if id in live - todo then FailContext(contexts[id], ses, id) else contexts[id]
      decreases |todo|
    {
      var id :| id in todo;
      todo := todo - {id};
      updated := updated[id := FailContext(updated[id], ses, id)];
    }
  }

  /** The result of a request after its body wait. */
  method FinishWait(before: Context, wait: Option<NetError>) returns (c: Context)
    ensures c == AfterWait(before, wait)
  {
    c := before;
    if c.responseReady && wait.Some? {
      c := c.(responseReady := false, result := c.result.(error := wait, body := [], trailers := []));
    }
    if !c.responseReady {
      c := CaptureError(c);
      if c.result.error.None? {
        var why := if wait.Some? then wait.value else NetError(Http2StreamError, None);
        c := c.(result := c.result.(error := Some(why)));
      }
    }
  }

  class ClientSession {
    var contexts: map<nat, Context>
    var live: set<nat>
    var output: set<nat>
    var error: Option<NetError>
    var goaway: bool
    var goawayError: Option<NetError>
    var lastStreamId: nat
    ghost var s: Session

    ghost predicate Synced()
      reads this
    {
      && contexts == s.contexts && live == s.live && output == s.output && error == s.error
      && goaway == s.goaway && goawayError == s.goawayError && lastStreamId == s.lastStreamId
      && live <= contexts.Keys
    }

    constructor ()
      ensures Synced() && s == Init()
    {
      contexts, live, output, error := map[], {}, {}, None;
      goaway, goawayError, lastStreamId := false, None, MAX_STREAM_ID;
      s := Init();
    }

    method OnGoaway(last: nat, code: nat)
      requires Synced()
      modifies this
      ensures Synced() && s == Step(old(s), Event.OnGoaway(last, code))
    {
      hide Step, RefuseContext, GoawayError, RefusedByGoaway;
      GoawayStep(s, last, code);
      GoneIs(s, Min(s.lastStreamId, last));
      goaway := true;
      lastStreamId := Min(lastStreamId, last);
      var err := GoawayError(code);
      goawayError := Some(err);
      var refused;
      contexts, refused := RefuseUnfinished(contexts, live, lastStreamId, err);
      live, output := live - refused, output - refused;
      s := Step(s, Event.OnGoaway(last, code));
    }

    method Fail(failure: Option<NetError>, ses: map<nat, NetError>)
      requires Synced()
      modifies this
      ensures Synced() && s == Step(old(s), OnFailure(failure, ses))
    {
      hide Step, FailContext;
      FailStep(s, failure, ses);
      if error.None? {
        error := Some(if failure.Some? then failure.value else Aborted());
        contexts := FailLive(contexts, live, ses);
        live := {};
      }
      s := Step(s, OnFailure(failure, ses));
    }

    method OnError(err: NetError, ses: map<nat, NetError>)
      requires Synced()
      modifies this
      ensures Synced() && s == Step(old(s), Event.OnError(err, ses))
    {
      hide Step;
      if IsStreamError(err) {
        var id := err.http2.value.streamId;
        if id in live {
          var c := contexts[id];
          if !c.responseReady {
            if err.http2.value.code == REFUSED_STREAM {
              c := c.(result := c.result.(disposition := NotProcessed));
            }
            if c.result.error.None? {
              c := c.(result := c.result.(error := Some(err)));
            }
          }
          contexts := contexts[id := WithStreamError(c, Lookup(ses, id))];
        }
        TouchesOne(s, Event.OnError(err, ses), id);
        s := Step(s, Event.OnError(err, ses));
      } else {
        ConnectionErrorFails(s, err, ses);
        Fail(Some(err), ses);
      }
    }

    method OnEndStream(
      id: nat, se: Option<NetError>, complete: bool, publish: Option<NetError>, body: seq<char>,
      trailers: seq<char>)
      requires Synced()
      modifies this
      ensures Synced() && s == Step(old(s), Event.OnEndStream(id, se, complete, publish, body, trailers))
    {
      hide Step;
      if id in live {
        var c := CaptureError(WithStreamError(contexts[id], se));
        if !c.responseReady && c.result.error.None? && complete {
          if publish.Some? {
            c := c.(result := c.result.(error := publish));
          } else {
            c := c.(result := c.result.(body := body, trailers := trailers));
            c := c.(responseReady := true);
          }
        }
        contexts := contexts[id := c];
      }
      TouchesOne(s, Event.OnEndStream(id, se, complete, publish, body, trailers), id);
      s := Step(s, Event.OnEndStream(id, se, complete, publish, body, trailers));
    }

    method OnStreamClose(id: nat, code: nat, se: Option<NetError>)
      requires Synced()
      modifies this
      ensures Synced() && s == Step(old(s), Event.OnStreamClose(id, code, se))
    {
      hide Step;
      if id in live {
        var c := contexts[id];
        if c.resetReceived && code == NO_ERROR && !c.responseReady && c.result.error.None? {
          c := c.(result := c.result.(error := Some(NetError(Http2StreamError, Some(Http2Info(code, id))))));
        }
        contexts := contexts[id := CaptureError(WithStreamError(c, se))];
        live := live - {id};
      }
      TouchesOne(s, Event.OnStreamClose(id, code, se), id);
      s := Step(s, Event.OnStreamClose(id, code, se));
    }

    /** The tail of a request coroutine, from the return of its body wait. */
    method OnBodyWaitEnds(id: nat, wait: Option<NetError>, protocolOpen: bool) returns (r: Result)
      requires Synced() && id in contexts
      modifies this
      ensures Synced() && s == Step(old(s), BodyWaitEnds(id, wait, protocolOpen)) && s.returned[id] == r
    {
      hide Step, AfterWait;
      var e := BodyWaitEnds(id, wait, protocolOpen);
      var c := FinishWait(contexts[id], wait);
      assert c == Touch(s, e, id);
      hide Touch;
      TouchesOne(s, e, id);
      if !c.responseReady || protocolOpen {
        live, output := live - {id}, output - {id};
      }
      contexts := contexts[id := c];
      s := Step(s, e);
      return c.result;
    }
  }
}
