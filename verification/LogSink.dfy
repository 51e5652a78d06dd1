/**
 The double-buffered asynchronous log sink: any number of writers and flushers, and one
 background thread, interleaved at their critical sections and file operations.
 */
module LogSink {
  /** What is appended to the file: a block of accepted lines, or a notice that lines were dropped. */
  datatype Chunk = Data(text: string) | Notice(lines: nat)

  /** Where the background thread stands. */
  datatype Pc = Waiting | Took | Noticing(lines: nat) | Appending | Syncing | Waking | Exited

  datatype State = State(
    cur: string,
    flushing: string,
    requests: seq<nat>,
    batch: seq<nat>,
    dropped: nat,
    file: seq<Chunk>,
    synced: nat,              // chunks known to be flushed
    stop: bool,
    pc: Pc,
    fulfilled: set<nat>,      // flush calls that may return
    accepted: string,         // history: accepted lines, in lock order
    lost: nat,                // history: lines dropped
    tickets: map<nat, nat>)   // history: how much was accepted when a flush call was queued

  function Init(): State {
    State("", "", [], [], 0, [], 0, false, Waiting, {}, "", 0, map[])
  }

  datatype Event =
    | Write(line: string)
    | Flush(t: nat)
    | Stop
    | Take
    | CountDropped
    | AppendNotice
    | AppendData
    | Sync
    | WakeOne
    | Rest

  predicate Enabled(s: State, e: Event) {
    match e
    case Write(_) => s.pc != Exited
    case Flush(t) => s.pc != Exited && t !in s.tickets
    case Stop => true
    case Take => s.pc == Waiting
    case CountDropped => s.pc == Took
    case AppendNotice => s.pc.Noticing?
    case AppendData => s.pc == Appending
    case Sync => s.pc == Syncing
    case WakeOne => s.pc == Waking && s.batch != []
    case Rest => s.pc == Waking && s.batch == []
  }

  /** The critical section of the background thread. */
  function Taken(s: State): State {
    if s.cur == "" && s.requests == [] then (if s.stop then s.(pc := Exited) else s)
    else s.(cur := s.flushing, flushing := s.cur, requests := s.batch, batch := s.requests, pc := Took)
  }

  /** One atomic step; `limit` is the back-pressure limit in bytes. */
  function Step(limit: nat, s: State, e: Event): State
    requires Enabled(s, e)
  {
    match e
    case Write(line) =>
      if |s.cur| > limit then s.(dropped := s.dropped + 1, lost := s.lost + 1)
      else s.(cur := s.cur + line, accepted := s.accepted + line)
    case Flush(t) => s.(requests := s.requests + [t], tickets := s.tickets[t := |s.accepted|])
    case Stop => s.(stop := true)
    case Take => Taken(s)
    case CountDropped => if s.flushing == "" then s.(pc := Syncing) else s.(dropped := 0, pc := Noticing(s.dropped))
    case AppendNotice => s.(file := s.file + (if s.pc.lines > 0 then [Notice(s.pc.lines)] else []), pc := Appending)
    case AppendData => s.(file := s.file + [Data(s.flushing)], flushing := "", pc := Syncing)
    case Sync => s.(synced := |s.file|, pc := Waking)
    case WakeOne => s.(fulfilled := s.fulfilled + {s.batch[0]}, batch := s.batch[1..])
    case Rest => s.(pc := Waiting)
  }

  // ---------------------------------------------------------------- the invariant

  /** The accepted text in the file. */
  function Text(file: seq<Chunk>): string {
    if file == [] then ""
    else Text(file[..|file| - 1]) + match file[|file| - 1] case Data(t) => t case Notice(_) => ""
  }

  function Reported(file: seq<Chunk>): nat {
    if file == [] then 0
    else Reported(file[..|file| - 1]) + match file[|file| - 1] case Data(_) => 0 case Notice(n) => n
  }

  ghost predicate Conserved(s: State) {
    && Text(s.file) + s.flushing + s.cur == s.accepted
    && Reported(s.file) + s.dropped + (if s.pc.Noticing? then s.pc.lines else 0) == s.lost
  }

  ghost predicate PcOk(s: State) {
    && s.synced <= |s.file|
    && (s.pc.Waiting? || s.pc.Exited? ==> s.batch == [])
    && (s.pc.Waiting? || s.pc.Syncing? || s.pc.Waking? || s.pc.Exited? ==> s.flushing == "")
    && (s.pc.Waking? ==> s.synced == |s.file|)
    && (s.pc.Exited? ==> s.cur == "" && s.requests == [])
  }

  /** A queued flush waits, or is in the batch being written, or may return; and then its text is in the file. */
  ghost predicate TicketOk(s: State, t: nat)
    requires t in s.tickets && s.synced <= |s.file|
  {
    && (t in s.requests || t in s.batch || t in s.fulfilled)
    && s.tickets[t] <= |s.accepted|
    && (t in s.batch ==> s.tickets[t] <= |Text(s.file)| + |s.flushing|)
    && (t in s.fulfilled ==> s.tickets[t] <= |Text(s.file[..s.synced])|)
  }

  /** Lines are dropped only while there is text to write, so a pending count is reported with that text. */
  ghost predicate DropsOk(s: State) {
    s.dropped > 0 ==> s.cur != "" || (s.pc == Took && s.flushing != "")
  }

  ghost predicate Inv(s: State) {
    && Conserved(s) && PcOk(s) && DropsOk(s)
    && (forall t :: t in s.tickets ==> TicketOk(s, t))
    && (forall t :: t in s.requests || t in s.batch || t in s.fulfilled ==> t in s.tickets)
  }

  lemma TextSnoc(file: seq<Chunk>, c: Chunk)
    ensures Text(file + [c]) == Text(file) + (if c.Data? then c.text else "")
    ensures Reported(file + [c]) == Reported(file) + (if c.Notice? then c.lines else 0)
  {
    assert (file + [c])[..|file|] == file;
  }

  lemma {:induction false} TextGrows(file: seq<Chunk>, n: nat)
    requires n <= |file|
    ensures Text(file[..n]) <= Text(file)
    decreases |file|
  {
    if n < |file| {
      var init := file[..|file| - 1];
      TextGrows(init, n);
      assert init[..n] == file[..n];
    } else {
      assert file[..n] == file;
    }
  }

  lemma FileSteps(limit: nat, s: State, e: Event)
    requires Inv(s) && Enabled(s, e) && (e.AppendNotice? || e.AppendData?)
    ensures Inv(Step(limit, s, e))
  {
    hide Text, Reported;
    var r := Step(limit, s, e);
    if e.AppendData? {
      TextSnoc(s.file, Data(s.flushing));
    } else if s.pc.lines > 0 {
      TextSnoc(s.file, Notice(s.pc.lines));
    } else {
      assert s.file + [] == s.file;
    }
    assert r.file[..r.synced] == s.file[..s.synced];
    forall t | t in r.tickets ensures TicketOk(r, t) {
      assert TicketOk(s, t);
    }
  }

  lemma WakeSteps(limit: nat, s: State, e: Event)
    requires Inv(s) && Enabled(s, e) && (e.Sync? || e.WakeOne? || e.Rest?)
    ensures Inv(Step(limit, s, e))
  {
    hide Text, Reported;
    var r := Step(limit, s, e);
    assert s.file[..|s.file|] == s.file;
    TextGrows(s.file, s.synced);
    forall t | t in r.tickets ensures TicketOk(r, t) {
      assert TicketOk(s, t);
      if e.WakeOne? {
        assert s.batch == [s.batch[0]] + s.batch[1..];
      }
    }
  }

  lemma TakeSteps(limit: nat, s: State, e: Event)
    requires Inv(s) && Enabled(s, e) && (e.Take? || e.CountDropped? || e.Stop?)
    ensures Inv(Step(limit, s, e))
  {
    hide Text, Reported;
    var r := Step(limit, s, e);
    forall t | t in r.tickets ensures TicketOk(r, t) {
      assert TicketOk(s, t);
    }
  }

  lemma CallerSteps(limit: nat, s: State, e: Event)
    requires Inv(s) && Enabled(s, e) && (e.Write? || e.Flush?)
    ensures Inv(Step(limit, s, e))
  {
    hide Text, Reported;
    var r := Step(limit, s, e);
    forall t | t in r.tickets ensures TicketOk(r, t) {
      if t in s.tickets {
        assert TicketOk(s, t);
      }
    }
  }

  lemma StepInv(limit: nat, s: State, e: Event)
    requires Inv(s) && Enabled(s, e)
    ensures Inv(Step(limit, s, e))
  {
    hide Inv, Step;
    match e
    case Write(_) => CallerSteps(limit, s, e);
    case Flush(_) => CallerSteps(limit, s, e);
    case AppendNotice => FileSteps(limit, s, e);
    case AppendData => FileSteps(limit, s, e);
    case Sync => WakeSteps(limit, s, e);
    case WakeOne => WakeSteps(limit, s, e);
    case Rest => WakeSteps(limit, s, e);
    case _ => TakeSteps(limit, s, e);
  }

  // ---------------------------------------------------------------- runs

  ghost predicate IsRun(limit: nat, states: seq<State>, events: seq<Event>) {
    && |states| == |events| + 1 && states[0] == Init()
    && forall i :: 0 <= i < |events| ==>
      Enabled(states[i], events[i]) && states[i + 1] == Step(limit, states[i], events[i])
  }

  lemma {:induction false} RunInv(limit: nat, states: seq<State>, events: seq<Event>, n: nat)
    requires IsRun(limit, states, events) && n < |states|
    ensures Inv(states[n])
  {
    hide Step, Enabled, Inv;
    if n == 0 {
      assert Inv(Init()) by {
        InitInv();
      }
    } else {
      RunInv(limit, states, events, n - 1);
      StepInv(limit, states[n - 1], events[n - 1]);
    }
  }

  lemma InitInv()
    ensures Inv(Init())
  {
  }

  // ---------------------------------------------------------------- what the events say

  /** What has been accepted and neither written nor taken for writing, when event `i` happens. */
  ghost function Backlog(s: State): int {
    |s.accepted| - |Text(s.file)| - |s.flushing|
  }

  /** Event `i` is a line that comes when too much is waiting. */
  ghost predicate Refused(limit: nat, states: seq<State>, events: seq<Event>, i: nat)
    requires i < |events| < |states|
  {
    events[i].Write? && Backlog(states[i]) > limit
  }

  /** The lines written by the first `n` events that were not refused, in order. */
  ghost function Kept(limit: nat, states: seq<State>, events: seq<Event>, n: nat): string
    requires n <= |events| < |states|
  {
    if n == 0 then ""
    else
      Kept(limit, states, events, n - 1)
      + if events[n - 1].Write? && !Refused(limit, states, events, n - 1) then events[n - 1].line else ""
  }

  /** How many of the first `n` events were refused. */
  ghost function Refusals(limit: nat, states: seq<State>, events: seq<Event>, n: nat): nat
    requires n <= |events| < |states|
  {
    if n == 0 then 0
    else Refusals(limit, states, events, n - 1) + if Refused(limit, states, events, n - 1) then 1 else 0
  }

  lemma BacklogIs(s: State)
    requires Inv(s)
    ensures Backlog(s) == |s.cur|
  {
    hide Text, Reported;
  }

  /** The history of a run is told by its `Write` and `Flush` events. */
  lemma HistoryStep(limit: nat, s: State, e: Event)
    requires Inv(s) && Enabled(s, e)
    ensures var r, refused := Step(limit, s, e), e.Write? && Backlog(s) > limit;
      && r.accepted == s.accepted + (if e.Write? && !refused then e.line else "")
      && r.lost == s.lost + (if refused then 1 else 0)
      && r.tickets == if e.Flush? then s.tickets[e.t := |s.accepted|] else s.tickets
  {
    BacklogIs(s);
    hide Inv;
    assert s.accepted + "" == s.accepted;
  }

  /**
   The accepted text is the lines of the `Write` events that were not refused, in order, and the refused ones are
   counted.
   */
  lemma {:induction false} AcceptedIsKept(limit: nat, states: seq<State>, events: seq<Event>, n: nat)
    requires IsRun(limit, states, events) && n < |states|
    ensures states[n].accepted == Kept(limit, states, events, n)
    ensures states[n].lost == Refusals(limit, states, events, n)
  {
    hide Step, Enabled, Inv, Backlog;
    if n > 0 {
      AcceptedIsKept(limit, states, events, n - 1);
      RunInv(limit, states, events, n - 1);
      HistoryStep(limit, states[n - 1], events[n - 1]);
    }
  }

  /** A line is dropped, and counted, exactly when more than the limit waits; otherwise it is the next accepted text. */
  lemma DropIff(limit: nat, states: seq<State>, events: seq<Event>, i: nat)
    requires IsRun(limit, states, events) && i < |events| && events[i].Write?
    ensures var s, r := states[i], states[i + 1];
      && (r.lost == s.lost + 1 && r.accepted == s.accepted <==> |s.accepted| - |Text(s.file)| - |s.flushing| > limit)
      && (|s.accepted| - |Text(s.file)| - |s.flushing| <= limit ==>
            r.lost == s.lost && r.accepted == s.accepted + events[i].line)
  {
    hide Step, Enabled, Inv;
    RunInv(limit, states, events, i);
    HistoryStep(limit, states[i], events[i]);
  }

  /**
   The file holds the lines that were not refused, in order, as far as it has come, and notices; what is missing
   is in the two buffers. Every refused line is reported or still to be reported.
   */
  lemma FileIsFaithful(limit: nat, states: seq<State>, events: seq<Event>, n: nat)
    requires IsRun(limit, states, events) && n < |states|
    ensures var s := states[n];
      && Text(s.file) <= Kept(limit, states, events, n)
      && Kept(limit, states, events, n) == Text(s.file) + s.flushing + s.cur
      && Reported(s.file) + s.dropped + (if s.pc.Noticing? then s.pc.lines else 0)
         == Refusals(limit, states, events, n)
  {
    AcceptedIsKept(limit, states, events, n);
    RunInv(limit, states, events, n);
    hide Text, Reported, Step, Enabled, Kept, Refusals, IsRun, TicketOk, PcOk, DropsOk;
    var s := states[n];
    FrontOf(Text(s.file), s.flushing, s.cur);
  }

  lemma FrontOf(a: string, b: string, c: string)
    ensures a <= a + b + c
  {
    assert a + b + c == a + (b + c);
  }

  /** A flush call has been queued by one of the first `n` events, and its history is what was accepted before it. */
  lemma {:induction false} TicketIs(limit: nat, states: seq<State>, events: seq<Event>, n: nat, t: nat)
    requires IsRun(limit, states, events) && n < |states|
    ensures t in states[n].tickets <==> exists i :: 0 <= i < n && events[i] == Flush(t)
    ensures forall i :: 0 <= i < n && events[i] == Flush(t) ==>
      t in states[n].tickets && states[n].tickets[t] == |Kept(limit, states, events, i)|
  {
    hide Step, Inv, Kept;
    if n > 0 {
      var e := events[n - 1];
      TicketIs(limit, states, events, n - 1, t);
      AcceptedIsKept(limit, states, events, n - 1);
      RunInv(limit, states, events, n - 1);
      HistoryStep(limit, states[n - 1], e);
      if e == Flush(t) {
        assert t !in states[n - 1].tickets;
        assert forall i :: 0 <= i < n && events[i] == Flush(t) ==> i == n - 1;
      } else {
        assert t in states[n].tickets <==> t in states[n - 1].tickets;
      }
    }
  }

  /**
   The background thread leaves nothing behind: every line that was not refused is in the file, every refused line
   is reported, and every flush call may return.
   */
  lemma ExitLeavesNothing(limit: nat, states: seq<State>, events: seq<Event>, n: nat)
    requires IsRun(limit, states, events) && n < |states| && states[n].pc == Exited
    ensures var s := states[n];
      && Text(s.file) == Kept(limit, states, events, n)
      && Reported(s.file) == Refusals(limit, states, events, n)
      && forall i :: 0 <= i < n && events[i].Flush? ==> events[i].t in s.fulfilled
  {
    RunInv(limit, states, events, n);
    AcceptedIsKept(limit, states, events, n);
    hide Text, Reported, Step, Enabled, Kept, Refusals;
    var s := states[n];
    forall i | 0 <= i < n && events[i].Flush? ensures events[i].t in s.fulfilled {
      var t := events[i].t;
      assert events[i] == Flush(t);
      TicketIs(limit, states, events, n, t);
      assert TicketOk(s, t);
    }
  }

  lemma {:induction false} KeptGrows(limit: nat, states: seq<State>, events: seq<Event>, i: nat, n: nat)
    requires i <= n <= |events| < |states|
    ensures Kept(limit, states, events, i) <= Kept(limit, states, events, n)
  {
    if i < n {
      KeptGrows(limit, states, events, i, n - 1);
    }
  }

  /** When a flush call may return, every line kept before the call is in the flushed part of the file. */
  lemma FlushWaits(limit: nat, states: seq<State>, events: seq<Event>, i: nat, n: nat, t: nat)
    requires IsRun(limit, states, events) && i < n < |states| && events[i] == Flush(t) && t in states[n].fulfilled
    ensures states[n].synced <= |states[n].file|
    ensures Kept(limit, states, events, i) <= Text(states[n].file[..states[n].synced])
  {
    RunInv(limit, states, events, n);
    TicketIs(limit, states, events, n, t);
    KeptGrows(limit, states, events, i, n);
    FileIsFaithful(limit, states, events, n);
    var s := states[n];
    hide Text, Reported, Step, Enabled, Kept, Refusals;
    assert TicketOk(s, t);
    TextGrows(s.file, s.synced);
  }

  lemma StopStep(limit: nat, s: State, e: Event)
    requires Enabled(s, e)
    ensures Step(limit, s, e).stop <==> s.stop || e.Stop?
  {
  }

  lemma {:induction false} StopIs(limit: nat, states: seq<State>, events: seq<Event>, n: nat)
    requires IsRun(limit, states, events) && n < |states|
    ensures states[n].stop <==> exists k :: 0 <= k < n && events[k].Stop?
  {
    hide Step, Enabled;
    if n > 0 {
      StopIs(limit, states, events, n - 1);
      StopStep(limit, states[n - 1], events[n - 1]);
    }
  }

  /**
   The background thread ends exactly when it is told to, everything kept is in the file and no flush call waits;
   otherwise it works whenever there is text or a flush call.
   */
  lemma ExitsIff(limit: nat, states: seq<State>, events: seq<Event>, i: nat)
    requires IsRun(limit, states, events) && i < |events| && events[i].Take?
    ensures var s := states[i];
      var idle := Text(s.file) == Kept(limit, states, events, i) && s.requests == [];
      && (states[i + 1].pc == Exited <==> idle && exists k :: 0 <= k < i && events[k].Stop?)
      && (states[i + 1].pc == Took <==> !idle)
  {
    RunInv(limit, states, events, i);
    StopIs(limit, states, events, i);
    FileIsFaithful(limit, states, events, i);
    hide Kept, Text, Reported, Refusals, Conserved, DropsOk, TicketOk;
  }

  lemma SyncStep(limit: nat, s: State, e: Event)
    requires Enabled(s, e)
    ensures s.file <= Step(limit, s, e).file
    ensures Step(limit, s, e).synced == if e.Sync? then |s.file| else s.synced
  {
  }

  /** The flushed part of the file is what it held at the last `Sync`; the file only grows. */
  lemma {:induction false} SyncedIs(limit: nat, states: seq<State>, events: seq<Event>, n: nat)
    requires IsRun(limit, states, events) && n < |states|
    ensures states[n].synced == 0 || exists k ::
      0 <= k < n && events[k].Sync? && states[k].file <= states[n].file && states[n].synced == |states[k].file|
  {
    hide Step, Enabled;
    if n > 0 {
      SyncedIs(limit, states, events, n - 1);
      SyncStep(limit, states[n - 1], events[n - 1]);
    }
  }

  // ---------------------------------------------------------------- the sink as an object

  /** The fields of the sink; each method is one critical section or one file operation. */
  class FileSink {
    const limit: nat
    var curBuf: string
    var flushBuf: string
    var flushRequests: seq<nat>
    var batchRequests: seq<nat>
    var dropped: nat
    var file: seq<Chunk>
    var stopRequested: bool
    ghost var s: State

    ghost predicate Synced()
      reads this
    {
      && Inv(s) && curBuf == s.cur && flushBuf == s.flushing && flushRequests == s.requests && batchRequests == s.batch
      && dropped == s.dropped && file == s.file && stopRequested == s.stop
    }

    constructor (limit: nat)
      ensures Synced() && s == Init() && this.limit == limit
    {
      this.limit := limit;
      curBuf, flushBuf, flushRequests, batchRequests, dropped, file, stopRequested := "", "", [], [], 0, [], false;
      s := Init();
    }

    method WriteLine(line: string)
      requires Synced() && s.pc != Exited
      modifies this
      ensures Synced() && s == Step(limit, old(s), Write(line))
      ensures |old(curBuf)| > limit ==> curBuf == old(curBuf) && dropped == old(dropped) + 1
      ensures |old(curBuf)| <= limit ==> curBuf == old(curBuf) + line && dropped == old(dropped)
    {
      hide Inv;
      StepInv(limit, s, Write(line));
      if |curBuf| > limit {
        dropped := dropped + 1;
      } else {
        curBuf := curBuf + line;
      }
      s := Step(limit, s, Write(line));
    }

    method QueueFlush(t: nat)
      requires Synced() && s.pc != Exited && t !in s.tickets
      modifies this
      ensures Synced() && s == Step(limit, old(s), Flush(t))
    {
      hide Inv;
      StepInv(limit, s, Flush(t));
      flushRequests := flushRequests + [t];
      s := Step(limit, s, Flush(t));
    }

    /** The background thread's critical section: leave, go on waiting, or take both the text and the flush calls. */
    method TakeBatch() returns (leave: bool, work: bool)
      requires Synced() && s.pc == Waiting
      modifies this
      ensures Synced() && s == Step(limit, old(s), Take)
      ensures (leave <==> s.pc == Exited) && (work <==> s.pc == Took)
    {
      hide Inv;
      StepInv(limit, s, Take);
      s := Step(limit, s, Take);
      if stopRequested && curBuf == "" && flushRequests == [] {
        return true, false;
      }
      if curBuf == "" && flushRequests == [] {
        return false, false;
      }
      curBuf, flushBuf := flushBuf, curBuf;
      batchRequests, flushRequests := flushRequests, batchRequests;
      return false, true;
    }

    method ExchangeDropped() returns (n: nat)
      requires Synced() && s.pc == Took
      modifies this
      ensures Synced() && s == Step(limit, old(s), CountDropped)
      ensures s.pc.Noticing? ==> n == s.pc.lines
    {
      hide Inv;
      StepInv(limit, s, CountDropped);
      n := dropped;
      if flushBuf != "" {
        dropped := 0;
      }
      s := Step(limit, s, CountDropped);
    }

    method WriteNotice(n: nat)
      requires Synced() && s.pc == Noticing(n)
      modifies this
      ensures Synced() && s == Step(limit, old(s), AppendNotice)
    {
      hide Inv;
      StepInv(limit, s, AppendNotice);
      if n > 0 {
        file := file + [Notice(n)];
      } else {
        assert file + [] == file;
      }
      s := Step(limit, s, AppendNotice);
    }

    method WriteData()
      requires Synced() && s.pc == Appending
      modifies this
      ensures Synced() && s == Step(limit, old(s), AppendData)
    {
      hide Inv;
      StepInv(limit, s, AppendData);
      file := file + [Data(flushBuf)];
      flushBuf := "";
      s := Step(limit, s, AppendData);
    }

    method SyncFile()
      requires Synced() && s.pc == Syncing
      modifies this
      ensures Synced() && s == Step(limit, old(s), Sync)
    {
      hide Inv;
      StepInv(limit, s, Sync);
      s := Step(limit, s, Sync);
    }

    /** Lets every flush call of the batch return. */
    method WakeAll()
      requires Synced() && s.pc == Waking
      modifies this
      ensures Synced()
      ensures s == old(s).(batch := [], pc := Waiting, fulfilled := old(s).fulfilled + (set t | t in old(s).batch))
    {
      hide Inv;
      ghost var all, k := batchRequests, 0;
      while batchRequests != []
        invariant Synced() && k <= |all| && batchRequests == all[k..]
        invariant s == old(s).(batch := all[k..], fulfilled := old(s).fulfilled + (set t | t in all[..k]))
        decreases |batchRequests|
      {
        StepInv(limit, s, WakeOne);
        s := Step(limit, s, WakeOne);
        assert all[..k + 1] == all[..k] + [all[k]];
        batchRequests := batchRequests[1..];
        k := k + 1;
      }
      assert all[..k] == all;
      StepInv(limit, s, Rest);
      s := Step(limit, s, Rest);
    }

    /**
     One round of the background thread with nothing in between: the waiting text is appended after a notice of the
     lines dropped, the file is flushed, and every waiting flush call may return.
     */
    method Round() returns (leave: bool)
      requires Synced() && s.pc == Waiting
      modifies this
      ensures Synced()
      ensures leave <==> old(stopRequested && curBuf == "" && flushRequests == [])
      ensures old(curBuf == "" && flushRequests == []) ==> file == old(file) && dropped == old(dropped)
      ensures curBuf == "" && flushBuf == "" && flushRequests == [] && batchRequests == []
      ensures file == old(file) + old(if dropped > 0 && curBuf != "" then [Notice(dropped)] else [])
                      + old(if curBuf != "" then [Data(curBuf)] else [])
      ensures dropped == old(if curBuf != "" then 0 else dropped)
      ensures s.fulfilled == old(s.fulfilled) + old(set t | t in flushRequests)
      ensures old(curBuf != "" || flushRequests != []) ==> s.synced == |file| && s.pc == Waiting
      ensures s.accepted == old(s.accepted) && s.lost == old(s.lost) && s.tickets == old(s.tickets)
    {
      hide Conserved, DropsOk, TicketOk;
      assert file + [] == file && (file + []) + [] == file;
      var work;
      leave, work := TakeBatch();
      if work {
        var n := ExchangeDropped();
        if flushBuf != "" {
          WriteNotice(n);
          WriteData();
        }
        SyncFile();
        WakeAll();
      }
    }
  }
}
