/**
 Where the parts of an HTTP/2 result come from: every body, trailer, status and error
 that a request hands back is read off one event of the run that concerns its stream.
 */
module Http2Answers {
  import opened Base
  import opened HttpTypes
  import opened Http2Session

  // ---------------------------------------------------------------- the events that speak of a stream

  /** The peer ended stream `id`, its body is complete and could be published. */
  ghost predicate Completes(e: Event, id: nat, body: seq<char>, trailers: seq<char>) {
    && e.OnEndStream? && e.id == id && e.complete && e.publish.None?
    && e.body == body && e.trailers == trailers
  }

  ghost predicate Heads(e: Event, id: nat, status: nat) {
    e.OnReceive? && e.id == id && e.status == status
  }

  /** The event gives `err` as a reason for stream `id` to fail. */
  ghost predicate Names(e: Event, id: nat, err: NetError) {
    match e
    case SubmittedDead(x) => x == id && err == NetError(OperationAborted, None)
    case OnReceive(x, se, _) => x == id && se == Some(err)
    case OnEndStream(x, se, complete, publish, _, _) =>
      x == id && (se == Some(err) || (complete && publish == Some(err)))
    case OnStreamClose(x, code, se) =>
      x == id && (se == Some(err) || (code == 0 && err == NetError(Http2StreamError, Some(Http2Info(0, id)))))
    case OnGoaway(_, code) => err == NetError(Http2ConnectionError, Some(Http2Info(code, 0)))
    case OnError(reason, ses) =>
      || (reason == err && err.http2.Some? && err.http2.value.streamId == id)
      || (id in ses && ses[id] == err)
    case OnFailure(_, ses) => id in ses && ses[id] == err
    case BodyWaitEnds(x, wait, _) =>
      x == id && (wait == Some(err) || (wait.None? && err == NetError(Http2StreamError, None)))
    case RequestThrows(x, thrown, _) => x == id && thrown == err
    case _ => false
  }

  ghost predicate Completed(events: seq<Event>, n: nat, id: nat, r: Result)
    requires n <= |events|
  {
    exists k :: 0 <= k < n && Completes(events[k], id, r.body, r.trailers)
  }

  ghost predicate Headed(events: seq<Event>, n: nat, id: nat, status: nat)
    requires n <= |events|
  {
    exists k :: 0 <= k < n && Heads(events[k], id, status)
  }

  ghost predicate Named(events: seq<Event>, n: nat, id: nat, err: NetError)
    requires n <= |events|
  {
    exists k :: 0 <= k < n && Names(events[k], id, err)
  }

  // ---------------------------------------------------------------- one event, one context

  /** What one event may put into a context: nothing that the context or the event does not hold. */
  ghost predicate Sourced(e: Event, id: nat, b: Context, c: Context) {
    && (c.responseReady ==> c.result.error.None?)
    && (!c.responseReady ==> c.result.body == [] && c.result.trailers == [])
    && (c.responseReady ==>
          || (b.responseReady && c.result.body == b.result.body && c.result.trailers == b.result.trailers)
          || Completes(e, id, c.result.body, c.result.trailers))
    && (c.result.status == b.result.status || Heads(e, id, c.result.status))
  }

  ghost predicate Tidy(c: Context) {
    && (c.responseReady ==> c.result.error.None?)
    && (!c.responseReady ==> c.result.body == [] && c.result.trailers == [])
  }

  lemma TouchIsSourced(s: Session, e: Event, id: nat)
    requires id in s.contexts && Tidy(s.contexts[id])
    ensures Sourced(e, id, s.contexts[id], Touch(s, e, id))
  {
    if e.OnEndStream? {
      EndIsSourced(s, e, id);
    } else if e.OnReceive? || e.BodyWaitEnds? || e.RequestThrows? {
      OwnIsSourced(s, e, id);
    } else {
      hide Completes, Heads, EndStream, AfterWait, WithStatus;
    }
  }

  lemma EndIsSourced(s: Session, e: Event, id: nat)
    requires id in s.contexts && Tidy(s.contexts[id]) && e.OnEndStream?
    ensures Sourced(e, id, s.contexts[id], Touch(s, e, id))
  {
  }

  lemma OwnIsSourced(s: Session, e: Event, id: nat)
    requires id in s.contexts && Tidy(s.contexts[id]) && (e.OnReceive? || e.BodyWaitEnds? || e.RequestThrows?)
    ensures Sourced(e, id, s.contexts[id], Touch(s, e, id))
  {
  }

  ghost predicate ErrorSourced(e: Event, id: nat, b: Context, c: Context) {
    forall err :: c.result.error == Some(err) || c.streamError == Some(err) ==>
      b.result.error == Some(err) || b.streamError == Some(err) || Names(e, id, err)
  }

  lemma TouchNamesErrors(s: Session, e: Event, id: nat)
    requires id in s.contexts
    ensures ErrorSourced(e, id, s.contexts[id], Touch(s, e, id))
  {
  }

  lemma ContextIs(s: Session, e: Event, id: nat)
    requires Inv(s) && Enabled(s, e) && id in Step(s, e).contexts
    ensures id in s.contexts ==> Step(s, e).contexts[id] == Touch(s, e, id)
    ensures id !in s.contexts ==>
      || (e == Submitted(id) && Step(s, e).contexts[id] == FreshContext())
      || (e == SubmittedDead(id) && Step(s, e).contexts[id] == DeadContext())
  {
    hide Touch, Rest, FreshContext, DeadContext, Truthful;
    if id in s.contexts {
      assert id !in NewContext(e);
    }
  }

  // ---------------------------------------------------------------- every run

  /** Every part of the context of stream `id` has its source in the first `n` events. */
  ghost predicate Explained(events: seq<Event>, n: nat, id: nat, c: Context)
    requires n <= |events|
  {
    && Tidy(c)
    && (c.responseReady ==> Completed(events, n, id, c.result))
    && (c.result.status != 0 ==> Headed(events, n, id, c.result.status))
    && (forall err :: c.result.error == Some(err) || c.streamError == Some(err) ==> Named(events, n, id, err))
  }

  lemma NewIsExplained(events: seq<Event>, n: nat, id: nat, c: Context)
    requires 0 < n <= |events|
    requires
      || (events[n - 1] == Submitted(id) && c == FreshContext())
      || (events[n - 1] == SubmittedDead(id) && c == DeadContext())
    ensures Explained(events, n, id, c)
  {
    if events[n - 1] == SubmittedDead(id) {
      assert Names(events[n - 1], id, Aborted());
    }
  }

  lemma TouchedIsExplained(events: seq<Event>, n: nat, id: nat, b: Context, c: Context)
    requires 0 < n <= |events| && Explained(events, n - 1, id, b)
    requires Sourced(events[n - 1], id, b, c) && ErrorSourced(events[n - 1], id, b, c)
    ensures Explained(events, n, id, c)
  {
    hide Completes, Heads, Names;
    forall err | c.result.error == Some(err) || c.streamError == Some(err) ensures Named(events, n, id, err) {
      if !Names(events[n - 1], id, err) {
        assert Named(events, n - 1, id, err);
      }
    }
  }

  lemma {:induction false} ContextExplained(events: seq<Event>, states: seq<Session>, n: nat, id: nat)
    requires IsRun(events, states) && n < |states| && id in states[n].contexts
    ensures Explained(events, n, id, states[n].contexts[id])
  {
    hide Step, Enabled, Explained;
    if n > 0 {
      var s, e := states[n - 1], events[n - 1];
      RunInv(events, states, n - 1);
      ContextIs(s, e, id);
      if id in s.contexts {
        ContextExplained(events, states, n - 1, id);
        assert Tidy(s.contexts[id]) by {
          ExplainedIsTidy(events, n - 1, id, s.contexts[id]);
        }
        TouchIsSourced(s, e, id);
        TouchNamesErrors(s, e, id);
        hide Touch, Sourced, ErrorSourced, Tidy;
        TouchedIsExplained(events, n, id, s.contexts[id], Touch(s, e, id));
      } else {
        NewIsExplained(events, n, id, states[n].contexts[id]);
      }
    }
  }

  lemma ExplainedIsTidy(events: seq<Event>, n: nat, id: nat, c: Context)
    requires n <= |events| && Explained(events, n, id, c)
    ensures Tidy(c)
  {
  }

  /** A stream is finished only with the body and the trailers of one of its complete ends, and without an error. */
  lemma ReadyIsComplete(events: seq<Event>, states: seq<Session>, n: nat, id: nat)
    requires IsRun(events, states) && n < |states|
    requires id in states[n].contexts && states[n].contexts[id].responseReady
    ensures states[n].contexts[id].result.error.None?
    ensures exists k ::
      && 0 <= k < n && events[k].OnEndStream? && events[k].id == id
      && events[k].complete && events[k].publish.None?
      && states[n].contexts[id].result.body == events[k].body
      && states[n].contexts[id].result.trailers == events[k].trailers
  {
    hide Step, Enabled;
    ContextExplained(events, states, n, id);
    var r := states[n].contexts[id].result;
    var k :| 0 <= k < n && Completes(events[k], id, r.body, r.trailers);
  }

  // ---------------------------------------------------------------- what is handed back

  /** A result handed back: complete, or an error without a body. */
  ghost predicate Answered(events: seq<Event>, n: nat, id: nat, r: Result)
    requires n <= |events|
  {
    && (r.error.None? ==> Completed(events, n, id, r))
    && (r.error.Some? ==> r.body == [] && r.trailers == [] && Named(events, n, id, r.error.value))
    && (r.status != 0 ==> Headed(events, n, id, r.status))
  }

  /** When a request hands back its result, its context is finished or holds an error. */
  lemma FinishedOrFailed(s: Session, e: Event, id: nat)
    requires id in s.contexts && (e.BodyWaitEnds? || e.RequestThrows?) && e.id == id
    ensures Touch(s, e, id).result.error.None? ==> Touch(s, e, id).responseReady
  {
  }

  lemma RestReturns(s: Session, e: Event)
    ensures !e.SubmittedDead? && !e.BodyWaitEnds? && !e.RequestThrows? ==> Rest(s, e).returned == s.returned
    ensures e.SubmittedDead? ==> Rest(s, e).returned == s.returned[e.id := DeadContext().result]
    ensures (e.BodyWaitEnds? || e.RequestThrows?) && e.id in s.contexts ==>
      Rest(s, e).returned == s.returned[e.id := Touch(s, e, e.id).result]
  {
    hide Touch, DeadContext, RefusedByGoaway;
  }

  lemma FinishReturns(s: Session, e: Event, id: nat)
    requires Inv(s) && Enabled(s, e) && id in Step(s, e).returned
    ensures
      || (id in s.returned && Step(s, e).returned[id] == s.returned[id])
      || (e == SubmittedDead(id) && Step(s, e).returned[id] == DeadContext().result)
      || ((e.BodyWaitEnds? || e.RequestThrows?) && e.id == id && id in s.contexts
          && Step(s, e).returned[id] == Touch(s, e, id).result)
  {
    StepIs(s, e);
    RestReturns(s, e);
    hide Step, Rest, Touch, DeadContext, Truthful, FreshContext;
  }

  lemma AnsweredLater(events: seq<Event>, n: nat, id: nat, r: Result)
    requires n < |events| && Answered(events, n, id, r)
    ensures Answered(events, n + 1, id, r)
  {
    hide Completes, Names, Heads;
  }

  lemma ExplainedIsAnswered(events: seq<Event>, n: nat, id: nat, c: Context)
    requires n <= |events| && Explained(events, n, id, c) && (c.result.error.None? ==> c.responseReady)
    ensures Answered(events, n, id, c.result)
  {
    hide Completes, Names, Heads;
  }

  lemma {:induction false} ReturnedIsAnswered(events: seq<Event>, states: seq<Session>, n: nat, id: nat)
    requires IsRun(events, states) && n < |states| && id in states[n].returned
    ensures Answered(events, n, id, states[n].returned[id])
  {
    hide Step, Enabled, Answered, Explained;
    if n > 0 {
      var s, e := states[n - 1], events[n - 1];
      RunInv(events, states, n - 1);
      FinishReturns(s, e, id);
      if id in s.returned && states[n].returned[id] == s.returned[id] {
        ReturnedIsAnswered(events, states, n - 1, id);
        AnsweredLater(events, n - 1, id, s.returned[id]);
      } else if e == SubmittedDead(id) {
        NewIsExplained(events, n, id, DeadContext());
        ExplainedIsAnswered(events, n, id, DeadContext());
      } else {
        FinishedOrFailed(s, e, id);
        hide Touch;
        RunInv(events, states, n);
        assert id in states[n].contexts;
        ContextIs(s, e, id);
        ContextExplained(events, states, n, id);
        ExplainedIsAnswered(events, n, id, states[n].contexts[id]);
      }
    }
  }

  /** A result without an error holds the body and the trailers of one complete end of its stream. */
  lemma SuccessIsComplete(events: seq<Event>, states: seq<Session>, n: nat, id: nat)
    requires IsRun(events, states) && n < |states|
    requires id in states[n].returned && states[n].returned[id].error.None?
    ensures exists k ::
      && 0 <= k < n && events[k].OnEndStream? && events[k].id == id
      && events[k].complete && events[k].publish.None?
      && states[n].returned[id].body == events[k].body
      && states[n].returned[id].trailers == events[k].trailers
  {
    hide Step, Enabled;
    ReturnedIsAnswered(events, states, n, id);
    var r := states[n].returned[id];
    var k :| 0 <= k < n && Completes(events[k], id, r.body, r.trailers);
  }

  /** A result with an error holds no body, and the error was given for its stream by one event. */
  lemma FailureIsNamed(events: seq<Event>, states: seq<Session>, n: nat, id: nat)
    requires IsRun(events, states) && n < |states|
    requires id in states[n].returned && states[n].returned[id].error.Some?
    ensures states[n].returned[id].body == [] && states[n].returned[id].trailers == []
    ensures exists k :: 0 <= k < n && Names(events[k], id, states[n].returned[id].error.value)
  {
    hide Step, Enabled;
    ReturnedIsAnswered(events, states, n, id);
  }

  lemma StatusIsReceived(events: seq<Event>, states: seq<Session>, n: nat, id: nat)
    requires IsRun(events, states) && n < |states|
    requires id in states[n].returned && states[n].returned[id].status != 0
    ensures exists k ::
      && 0 <= k < n && events[k].OnReceive? && events[k].id == id
      && events[k].status == states[n].returned[id].status
  {
    hide Step, Enabled;
    ReturnedIsAnswered(events, states, n, id);
    var k :| 0 <= k < n && Heads(events[k], id, states[n].returned[id].status);
  }

  // ---------------------------------------------------------------- a complete answer reaches its caller

  /** A live, unfinished stream without an error. */
  ghost predicate Open(s: Session, id: nat) {
    && id in s.live && id in s.contexts
    && !s.contexts[id].responseReady && s.contexts[id].result.error.None? && s.contexts[id].streamError.None?
  }

  /** The complete end of an open stream is stored. */
  lemma EndIsStored(s: Session, e: Event, id: nat)
    requires Inv(s) && Enabled(s, e) && Open(s, id)
    requires e.OnEndStream? && e.id == id && e.complete && e.publish.None? && e.se.None?
    ensures var t := Step(s, e);
      && id in t.contexts && t.contexts[id].responseReady
      && t.contexts[id].result == s.contexts[id].result.(body := e.body, trailers := e.trailers)
  {
    assert id in Step(s, e).contexts;
    assert Touch(s, e, id).responseReady;
    ContextIs(s, e, id);
  }

  lemma ReturnedStaysOne(s: Session, e: Event, id: nat)
    requires Inv(s) && Enabled(s, e) && id in s.returned
    ensures id in Step(s, e).returned && Step(s, e).returned[id] == s.returned[id]
  {
    StepIs(s, e);
    RestReturns(s, e);
    hide Step, Rest, Touch, FreshContext, DeadContext, Truthful;
  }

  /** A request hands back one result, and it does not change afterwards. */
  lemma {:induction false} ReturnedStays(events: seq<Event>, states: seq<Session>, i: nat, j: nat, id: nat)
    requires IsRun(events, states) && i <= j < |states| && id in states[i].returned
    ensures id in states[j].returned && states[j].returned[id] == states[i].returned[id]
  {
    hide Step, Enabled;
    if i < j {
      ReturnedStays(events, states, i, j - 1, id);
      RunInv(events, states, j - 1);
      ReturnedStaysOne(states[j - 1], events[j - 1], id);
    }
  }

  lemma WaitReturns(s: Session, e: Event)
    requires Enabled(s, e) && (e.BodyWaitEnds? || e.RequestThrows?)
    ensures e.id in s.contexts && e.id !in s.returned
    ensures e.id in Step(s, e).returned && Step(s, e).returned[e.id] == Touch(s, e, e.id).result
  {
    hide Touch;
  }

  /** Up to the return of its body wait, no wait of the stream has failed. */
  lemma NoEarlierWait(events: seq<Event>, states: seq<Session>, i: nat, j: nat, id: nat)
    requires IsRun(events, states) && i < j < |events|
    requires (events[j].BodyWaitEnds? || events[j].RequestThrows?) && events[j].id == id
    ensures !OwnWaitFails(events[i], id)
  {
    WaitReturns(states[j], events[j]);
    if OwnWaitFails(events[i], id) {
      WaitReturns(states[i], events[i]);
      hide Step, Enabled;
      ReturnedStays(events, states, i + 1, j, id);
    }
  }

  lemma ReadyReturns(s: Session, e: Event, id: nat)
    requires id in s.contexts && s.contexts[id].responseReady
    requires (e.BodyWaitEnds? && e.id == id && e.wait.None?) || (e.RequestThrows? && e.id == id)
    ensures Touch(s, e, id) == s.contexts[id]
  {
  }

  /**
   The complete end of an open stream is what the caller gets, whatever happens in between, unless the request's
   own body wait fails; and it keeps it for the rest of the run.
   */
  lemma AnswerIsDelivered(events: seq<Event>, states: seq<Session>, i: nat, j: nat, n: nat, id: nat)
    requires IsRun(events, states) && i < j < n < |states| && Open(states[i], id)
    requires events[i].OnEndStream? && events[i].id == id && events[i].complete
      && events[i].publish.None? && events[i].se.None?
    requires (events[j].BodyWaitEnds? && events[j].wait.None?) || events[j].RequestThrows?
    requires events[j].id == id
    ensures id in states[n].returned
    ensures var r := states[n].returned[id];
      && r.error.None? && r.body == events[i].body && r.trailers == events[i].trailers
      && r.disposition == states[i].contexts[id].result.disposition
  {
    hide Step, Enabled;
    RunInv(events, states, i);
    EndIsStored(states[i], events[i], id);
    forall k | i + 1 <= k < j ensures !OwnWaitFails(events[k], id) {
      NoEarlierWait(events, states, k, j, id);
    }
    CompleteAnswerIsFinal(events, states, i + 1, j, id);
    WaitReturns(states[j], events[j]);
    ReadyReturns(states[j], events[j], id);
    hide Touch;
    ReturnedStays(events, states, j + 1, n, id);
  }

  // ---------------------------------------------------------------- errors

  /** The first error of a stream stays, unless a GOAWAY refuses the stream. */
  lemma FirstErrorStays(s: Session, e: Event, id: nat)
    requires Inv(s) && Enabled(s, e) && id in s.contexts && Tidy(s.contexts[id])
    requires s.contexts[id].result.error.Some? && !e.OnGoaway?
    ensures id in Step(s, e).contexts
    ensures Step(s, e).contexts[id].result.error == s.contexts[id].result.error
  {
    assert Touch(s, e, id).result.error == s.contexts[id].result.error;
    StepIs(s, e);
    hide Touch, Step;
    ContextIs(s, e, id);
  }

  /** An error of stream `id` reaches that stream only; a refusal leaves evidence unless the stream is finished. */
  lemma StreamErrorIsExact(s: Session, err: NetError, ses: map<nat, NetError>, id: nat)
    requires Inv(s) && Enabled(s, OnError(err, ses)) && id in s.contexts
    requires err.http2.Some? && err.http2.value.streamId > 0
    ensures var t, mine := Step(s, OnError(err, ses)), err.http2.value.streamId == id && id in s.live;
      && id in t.contexts && t.error == s.error && t.live == s.live
      && (!mine ==> t.contexts[id] == s.contexts[id])
      && (s.contexts[id].responseReady ==> t.contexts[id].result == s.contexts[id].result)
      && (mine && !s.contexts[id].responseReady ==>
            && (err.http2.value.code == 7 ==> t.contexts[id].result.disposition == NotProcessed)
            && (err.http2.value.code != 7 ==>
                  t.contexts[id].result.disposition == s.contexts[id].result.disposition)
            && (s.contexts[id].result.error.None? ==> t.contexts[id].result.error == Some(err)))
  {
    StepIs(s, OnError(err, ses));
    hide Step, Inv;
    assert id in Step(s, OnError(err, ses)).contexts;
    ContextIs(s, OnError(err, ses), id);
  }

  /** A connection error ends the session once: it fails every live unfinished stream that its object says failed. */
  lemma FailureIsExact(s: Session, failure: Option<NetError>, ses: map<nat, NetError>, id: nat)
    requires Inv(s) && Enabled(s, OnFailure(failure, ses)) && id in s.contexts
    ensures var t, b := Step(s, OnFailure(failure, ses)), s.contexts[id];
      && id in t.contexts
      && (s.error.Some? ==> t == s)
      && (s.error.None? ==>
            && t.live == {}
            && t.error == (if failure.Some? then failure else Some(NetError(OperationAborted, None))))
      && (id !in s.live || b.responseReady || b.result.error.Some? ==> t.contexts[id].result == b.result)
      && (s.error.None? && id in s.live && !b.responseReady && b.result.error.None? ==>
            t.contexts[id].result.error ==
              if b.streamError.Some? then b.streamError else if id in ses then Some(ses[id]) else None)
  {
    FailStep(s, failure, ses);
    hide Step, Inv, Enabled;
  }

  /** An error that the stream object reports reaches the result of an open stream. */
  lemma ReportIsCaptured(s: Session, e: Event, id: nat, err: NetError)
    requires Inv(s) && Enabled(s, e) && Open(s, id)
    requires e.OnReceive? || e.OnEndStream? || (e.OnStreamClose? && (e.code != 0 || !s.contexts[id].resetReceived))
    requires e.id == id && e.se == Some(err)
    ensures id in Step(s, e).contexts && Step(s, e).contexts[id].result.error == Some(err)
  {
    assert Touch(s, e, id).result.error == Some(err);
    StepIs(s, e);
    hide Step, Touch, Inv;
    ContextIs(s, e, id);
  }

  /** A stream that closes without an error code after a reset fails with that code. */
  lemma ResetIsCaptured(s: Session, e: Event, id: nat)
    requires Inv(s) && Enabled(s, e) && Open(s, id) && s.contexts[id].resetReceived
    requires e.OnStreamClose? && e.id == id && e.code == 0
    ensures id in Step(s, e).contexts
    ensures Step(s, e).contexts[id].result.error == Some(NetError(Http2StreamError, Some(Http2Info(0, id))))
  {
    assert Touch(s, e, id).result.error.Some?;
    StepIs(s, e);
    hide Step, Inv;
    ContextIs(s, e, id);
  }

  function FirstOf(a: Option<NetError>, b: Option<NetError>): Option<NetError> {
    if a.Some? then a else b
  }

  /** What a request hands back when its body wait returns. */
  lemma WaitIsExact(s: Session, e: Event)
    requires Enabled(s, e) && e.BodyWaitEnds?
    ensures e.id in s.contexts && e.id in Step(s, e).returned
    ensures var b, r := s.contexts[e.id], Step(s, e).returned[e.id];
      && (b.responseReady && e.wait.None? ==> r == b.result)
      && (b.responseReady && e.wait.Some? ==> r == b.result.(error := e.wait, body := [], trailers := []))
      && (!b.responseReady ==>
            r == b.result.(error := FirstOf(b.result.error, FirstOf(b.streamError,
                                      FirstOf(e.wait, Some(NetError(Http2StreamError, None)))))))
  {
    WaitReturns(s, e);
    hide Step;
  }

  lemma ThrowIsExact(s: Session, e: Event)
    requires Enabled(s, e) && e.RequestThrows?
    ensures e.id in s.contexts && e.id in Step(s, e).returned
    ensures var b, r := s.contexts[e.id], Step(s, e).returned[e.id];
      r == if b.responseReady then b.result else b.result.(error := FirstOf(b.result.error, Some(e.thrown)))
  {
    WaitReturns(s, e);
    hide Step;
  }

  // ---------------------------------------------------------------- the connection over a run

  /** The failures that end a session. */
  ghost predicate EndsSession(e: Event) {
    e.OnFailure? || (e.OnError? && (e.err.http2.None? || e.err.http2.value.streamId == 0))
  }

  ghost predicate Recorded(events: seq<Event>, n: nat, s: Session)
    requires n <= |events|
  {
    && (s.settingsSeen <==> exists k :: 0 <= k < n && events[k].OnSettings?)
    && (s.goaway <==> exists k :: 0 <= k < n && events[k].OnGoaway?)
    && (forall k :: 0 <= k < n && events[k].OnGoaway? ==> s.lastStreamId <= events[k].last)
    && (s.lastStreamId == MAX_STREAM_ID
        || exists k :: 0 <= k < n && events[k].OnGoaway? && s.lastStreamId == events[k].last)
    && (s.error.Some? <==> exists k :: 0 <= k < n && EndsSession(events[k]))
  }

  lemma RestRemembers(s: Session, e: Event)
    ensures var t := Rest(s, e);
      && (t.settingsSeen <==> s.settingsSeen || e.OnSettings?)
      && (t.goaway <==> s.goaway || e.OnGoaway?)
      && t.lastStreamId == (if e.OnGoaway? then Min(s.lastStreamId, e.last) else s.lastStreamId)
  {
    hide Touch, RefusedByGoaway;
  }

  lemma RestFails(s: Session, e: Event)
    ensures var t := Rest(s, e);
      && (t.error.Some? <==> s.error.Some? || EndsSession(e))
      && (s.error.Some? ==> t.error == s.error)
      && (s.error.None? && e.OnError? && EndsSession(e) ==> t.error == Some(e.err))
  {
    hide Touch, RefusedByGoaway;
  }

  /** What an event does to the connection, its streams aside. */
  lemma ConnectionIs(s: Session, e: Event)
    ensures var t := Step(s, e);
      && (t.settingsSeen <==> s.settingsSeen || e.OnSettings?)
      && (t.goaway <==> s.goaway || e.OnGoaway?)
      && t.lastStreamId == (if e.OnGoaway? then Min(s.lastStreamId, e.last) else s.lastStreamId)
      && (t.error.Some? <==> s.error.Some? || EndsSession(e))
      && (s.error.Some? ==> t.error == s.error)
      && (s.error.None? && e.OnError? && EndsSession(e) ==> t.error == Some(e.err))
  {
    StepIs(s, e);
    RestRemembers(s, e);
    RestFails(s, e);
    hide Step, Rest;
  }

  /**
   Whether settings, a GOAWAY or a failure came is what the session remembers, and the last stream id is the
   smallest of all GOAWAY frames.
   */
  lemma {:induction false} ConnectionRecords(events: seq<Event>, states: seq<Session>, n: nat)
    requires IsRun(events, states) && n < |states|
    ensures Recorded(events, n, states[n])
  {
    hide Step, Enabled, EndsSession;
    if n > 0 {
      ConnectionRecords(events, states, n - 1);
      ConnectionIs(states[n - 1], events[n - 1]);
    }
  }

  /** How a stream leaves the session. */
  ghost predicate Leaves(s: Session, e: Event, id: nat)
    requires id in s.contexts
  {
    || (e.OnStreamClose? && e.id == id)
    || (e.OnGoaway? && (id > e.last || id > s.lastStreamId) && !s.contexts[id].responseReady)
    || (EndsSession(e) && s.error.None?)
    || (e.BodyWaitEnds? && e.id == id && (e.protocolOpen || e.wait.Some? || !s.contexts[id].responseReady))
    || (e.RequestThrows? && e.id == id && (e.protocolOpen || !s.contexts[id].responseReady))
  }

  /** A stream is registered when it is submitted, and until it leaves in one of these ways. */
  lemma LiveIff(s: Session, e: Event, id: nat)
    requires Inv(s) && Enabled(s, e)
    ensures id in Step(s, e).live <==> e == Submitted(id) || (id in s.live && !Leaves(s, e, id))
  {
    StepIs(s, e);
    hide Step, Truthful, Touch, Leaves;
    if e.BodyWaitEnds? || e.RequestThrows? {
      FinishLive(s, e, e.id, id);
      OthersStay(s, e, id);
      hide Finish;
    } else {
      hide Enabled;
      RestLive(s, e, id);
      hide Rest;
    }
  }

  lemma OthersStay(s: Session, e: Event, id: nat)
    requires id in s.live ==> id in s.contexts
    requires e.BodyWaitEnds? || e.RequestThrows?
    ensures id in s.live && e.id != id ==> !Leaves(s, e, id)
  {
  }

  lemma RestLive(s: Session, e: Event, id: nat)
    requires s.live <= s.contexts.Keys && !e.BodyWaitEnds? && !e.RequestThrows?
    ensures id in Rest(s, e).live <==> e == Submitted(id) || (id in s.live && !Leaves(s, e, id))
  {
  }

  lemma FinishLive(s: Session, e: Event, x: nat, id: nat)
    requires x in s.contexts && (e.BodyWaitEnds? || e.RequestThrows?) && e.id == x
    ensures id in Finish(s, e, x, e.protocolOpen).live <==>
      id in s.live && !(x == id && Leaves(s, e, x))
  {
  }

  /** How a queued request is taken from the writer's queue. */
  ghost predicate Dequeues(s: Session, e: Event, id: nat) {
    || ((e.Withdrawn? || e.SubmittedDead? || e.WriterRuns? || e.OnReset?) && e.id == id)
    || ((e.OnGoaway? || e.BodyWaitEnds? || e.RequestThrows?) && id in s.contexts && Leaves(s, e, id)
        && (e.OnGoaway? ==> id in s.live))
  }

  /** A request waits for the writer until it is written, taken back, reset, refused or given up. */
  lemma OutputIff(s: Session, e: Event, id: nat)
    requires Inv(s) && Enabled(s, e)
    ensures id in Step(s, e).output <==> e == Queued(id) || (id in s.output && !Dequeues(s, e, id))
  {
    StepIs(s, e);
    hide Step, Truthful, Touch, Dequeues;
    if e.BodyWaitEnds? || e.RequestThrows? {
      FinishOutput(s, e, e.id, id);
      hide Finish;
    } else {
      hide Enabled;
      RestOutput(s, e, id);
      hide Rest;
    }
  }

  lemma FinishOutput(s: Session, e: Event, x: nat, id: nat)
    requires x in s.contexts && (e.BodyWaitEnds? || e.RequestThrows?) && e.id == x
    ensures id in Finish(s, e, x, e.protocolOpen).output <==> id in s.output && !Dequeues(s, e, id)
  {
  }

  lemma RestOutput(s: Session, e: Event, id: nat)
    requires s.live <= s.contexts.Keys && !e.BodyWaitEnds? && !e.RequestThrows?
    ensures id in Rest(s, e).output <==> e == Queued(id) || (id in s.output && !Dequeues(s, e, id))
  {
  }

  // ---------------------------------------------------------------- capacity

  /** Exactly the smaller of the free stream slots and the free application tasks, while requests are accepted. */
  lemma CapacityIsExact(
    s: Session, requestAllowed: bool, localLimit: nat, peerLimit: nat, maxTasks: nat, streams: nat, tasks: nat,
    n: nat)
    ensures var c := SessionCapacity(s, requestAllowed, localLimit, peerLimit, maxTasks, streams, tasks);
      && (c.accepting <==> s.settingsSeen && s.error.None? && !s.goaway && requestAllowed)
      && (n <= c.available <==>
            n == 0 || (c.accepting && streams + n <= localLimit && streams + n <= peerLimit && tasks + n <= maxTasks))
  {
  }
}
