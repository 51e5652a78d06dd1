/**
 One HTTP client: the hand-off gate that serialises connecting, HTTP/1 exchanges and
 HTTP/2 sessions, the connection generations, and the shared connect flights. All of
 it runs on one event loop, so a stretch of code between two suspensions is one step;
 `Close` may come from any thread and only moves the generation and posts a stop.
 */
module ClientGate {
  import opened Base

  /** Why a coroutine wants the gate. */
  datatype Goal = ToConnect(flight: nat) | ToExchange

  datatype Waiter = Waiter(goal: Goal, generation: nat, granted: bool, abandoned: bool)

  datatype Job = Connecting(flight: nat) | Exchanging | RunningSession

  /** A live lease, with the transport its owner found or made. */
  datatype Holder = Holder(job: Job, generation: nat, serial: nat)

  datatype Phase = Fresh | Opening | Active | Closed

  /** `serial` counts installations: two transports never share it. */
  datatype Transport = Transport(serial: nat, generation: nat, phase: Phase)

  datatype Flight = Flight(generation: nat, started: bool, completed: bool)

  /** A posted stop; `serial` is the transport that was installed when `Close` was called. */
  datatype Stop = Stop(cutoff: nat, serial: nat)

  datatype Client = Client(
    busy: bool,
    queue: seq<nat>,               // tickets waiting for the gate
    waiters: map<nat, Waiter>,     // suspended coroutines, by ticket
    holders: map<nat, Holder>,     // live leases, by ticket
    nextTicket: nat,
    generation: nat,
    stopping: bool,
    stops: set<Stop>,
    transport: Transport,
    flights: map<nat, Flight>,
    flight: Option<nat>,           // the flight newcomers share
    log: seq<nat>,                 // tickets in the order they were given the gate
    returned: nat)                 // calls of Release

  datatype Event =
    | StartFlight(f: nat, token: nat)
    | Acquire(goal: Goal, token: nat)
    | Wake(t: nat, ok: bool)                         // resumed, or destroyed while suspended (not ok)
    | ConnectEnds(t: nat, ok: bool, http2: bool)
    | ExchangeEnds(t: nat, keep: bool)
    | SessionEnds(t: nat)
    | Close(terminal: bool)
    | RunStop(stop: Stop)

  function Init(): Client {
    Client(false, [], map[], map[], 0, 1, false, {}, Transport(0, 0, Fresh), map[], None, [], 0)
  }

  predicate Current(s: Client, token: nat) {
    !s.stopping && s.generation == token
  }

  predicate ActiveOn(s: Client, token: nat) {
    Current(s, token) && s.transport.phase == Active && s.transport.generation == token
  }

  // ---------------------------------------------------------------- the pieces

  function Disconnect(s: Client, token: nat): Client {
    if s.transport.generation != token then s else s.(transport := s.transport.(phase := Closed))
  }

  /** The waiter is still there, was not abandoned, and its generation is the current one. */
  predicate Wants(s: Client, t: nat) {
    t in s.waiters && !s.waiters[t].abandoned && Current(s, s.waiters[t].generation)
  }

  /** The place in the queue of the first waiter that still wants the gate. */
  function FirstWanting(s: Client, q: seq<nat>): (k: nat)
    ensures k <= |q| && (k < |q| ==> Wants(s, q[k]))
    ensures forall i :: 0 <= i < k ==> !Wants(s, q[i])
  {
    if q == [] || Wants(s, q[0]) then 0 else 1 + FirstWanting(s, q[1..])
  }

  function Skip(s: Client, skipped: seq<nat>): map<nat, Waiter> {
    map t | t in s.waiters :: if t in skipped then s.waiters[t].(abandoned := true) else s.waiters[t]
  }

  /** Hands the gate to the first waiter that still wants it, or frees it. */
  function HandOn(s: Client): Client {
    var k := FirstWanting(s, s.queue);
    var waiters := Skip(s, s.queue[..k]);
    if k == |s.queue| then s.(busy := false, queue := [], waiters := waiters)
    else
      var t := s.queue[k];
      s.(queue := s.queue[k + 1..], waiters := waiters[t := s.waiters[t].(granted := true)],
         log := s.log + [t])
  }

  function Release(s: Client): Client {
    HandOn(s.(returned := s.returned + 1))
  }

  function Complete(s: Client, f: nat): Client {
    if f in s.flights then s.(flights := s.flights[f := s.flights[f].(completed := true)]) else s
  }

  /** A connect coroutine that does not get the gate completes its flight with an error. */
  function Refuse(s: Client, goal: Goal): Client {
    if goal.ToConnect? then Complete(s, goal.flight) else s
  }

  function Install(s: Client, t: nat, f: nat, token: nat): Client {
    var serial := s.transport.serial + 1;
    s.(transport := Transport(serial, token, Opening),
       holders := s.holders[t := Holder(Connecting(f), token, serial)])
  }

  /** `close()`, from any thread: moves the generation and posts a stop. */
  function CloseCall(s: Client, terminal: bool): Client {
    s.(stopping := s.stopping || terminal, generation := s.generation + 1,
       stops := s.stops + {Stop(s.generation, s.transport.serial)})
  }

  /** The lease of ticket `t` has just been claimed with a current token. */
  function Begin(s: Client, t: nat, goal: Goal, token: nat): Client
  {
    match goal
    case ToConnect(f) => Install(s, t, f, token)
    case ToExchange =>
      if ActiveOn(s, token)
      then s.(holders := s.holders[t := Holder(Exchanging, token, s.transport.serial)])
      else Release(s)
  }

  function DropHolder(s: Client, t: nat): Client {
    s.(holders := s.holders - {t})
  }

  // ---------------------------------------------------------------- the steps

  function DoAcquire(s: Client, goal: Goal, token: nat): Client
  {
    var s := if goal.ToConnect? && goal.flight in s.flights
             then s.(flights := s.flights[goal.flight := s.flights[goal.flight].(started := true)]) else s;
    if !Current(s, token) then Refuse(s, goal)
    else
      var t := s.nextTicket;
      var s := s.(nextTicket := t + 1);
      if s.busy then s.(queue := s.queue + [t], waiters := s.waiters[t := Waiter(goal, token, false, false)])
      else Begin(s.(busy := true, log := s.log + [t]), t, goal, token)
  }

  function DoWake(s: Client, t: nat, ok: bool): Client
    requires t in s.waiters
  {
    var w := s.waiters[t];
    var s := s.(waiters := s.waiters - {t}, queue := Without(s.queue, t));
    if !w.granted then Refuse(s, w.goal)
    else if ok && Current(s, w.generation) then Begin(s, t, w.goal, w.generation)
    else Release(Refuse(s, w.goal))
  }

  function DoConnectEnds(s: Client, t: nat, ok: bool, http2: bool): Client
    requires t in s.holders && s.holders[t].job.Connecting?
  {
    var h := s.holders[t];
    var s := Complete(s, h.job.flight);
    if ok && Current(s, h.generation) then
      var s := s.(transport := s.transport.(phase := Active));
      if http2 then s.(holders := s.holders[t := h.(job := RunningSession)]) else Release(DropHolder(s, t))
    else Release(DropHolder(Disconnect(s, h.generation), t))
  }

  function Abandon(w: Waiter, cutoff: nat): Waiter {
    if w.generation <= cutoff then w.(abandoned := true) else w
  }

  function DoStop(s: Client, stop: Stop): Client {
    var s := s.(stops := s.stops - {stop});
    var s := if s.transport.generation <= stop.cutoff then Disconnect(s, s.transport.generation) else s;
    s.(waiters := map t | t in s.waiters :: if t in s.queue then Abandon(s.waiters[t], stop.cutoff) else s.waiters[t])
  }

  function Step(s: Client, e: Event): Client
    requires Enabled(s, e)
  {
    match e
    case StartFlight(f, token) => s.(flights := s.flights[f := Flight(token, false, false)], flight := Some(f))
    case Acquire(goal, token) => DoAcquire(s, goal, token)
    case Wake(t, ok) => DoWake(s, t, ok)
    case ConnectEnds(t, ok, http2) => DoConnectEnds(s, t, ok, http2)
    case ExchangeEnds(t, keep) =>
      var h := s.holders[t];
      Release(DropHolder(if keep && Current(s, h.generation) then s else Disconnect(s, h.generation), t))
    case SessionEnds(t) =>
      Release(DropHolder(Disconnect(s, s.holders[t].generation), t))
    case Close(terminal) => CloseCall(s, terminal)
    case RunStop(stop) => DoStop(s, stop)
  }

  /** What the code's own control flow guarantees when it takes each step. */
  predicate Enabled(s: Client, e: Event) {
    match e
    case StartFlight(f, token) =>
      && f !in s.flights && Current(s, token) && !ActiveOn(s, token)
      && (s.flight.Some? && s.flight.value in s.flights ==> s.flights[s.flight.value].completed)
    case Acquire(ToConnect(f), token) =>
      f in s.flights && !s.flights[f].started && !s.flights[f].completed && s.flights[f].generation == token
    case Acquire(ToExchange, _) => true
    case Wake(t, _) => t in s.waiters
    case ConnectEnds(t, _, _) => t in s.holders && s.holders[t].job.Connecting?
    case ExchangeEnds(t, _) => t in s.holders && s.holders[t].job.Exchanging?
    case SessionEnds(t) => t in s.holders && s.holders[t].job.RunningSession?
    case Close(_) => true
    case RunStop(stop) => stop in s.stops
  }

  // ---------------------------------------------------------------- the invariant

  predicate QueueOk(s: Client) {
    forall t :: t in s.queue ==> t in s.waiters
  }

  ghost predicate Ascending(q: seq<nat>) {
    forall i, j :: 0 <= i < j < |q| ==> q[i] < q[j]
  }

  /** Ticket `t` owns the gate: a live lease, or a grant that nobody has claimed yet. */
  ghost predicate Owns(s: Client, t: nat) {
    t in s.holders || (t in s.waiters && s.waiters[t].granted)
  }

  ghost predicate OneOwner(s: Client) {
    && (forall t, u :: Owns(s, t) && Owns(s, u) ==> t == u)
    && (s.busy <==> exists t :: Owns(s, t))
    && (!s.busy ==> s.queue == [])
    && |s.log| == s.returned + if s.busy then 1 else 0
  }

  ghost predicate Tickets(s: Client) {
    && QueueOk(s)
    && (forall t :: t in s.waiters ==> t < s.nextTicket && t !in s.holders)
    && (forall t :: t in s.holders ==> t < s.nextTicket)
    && (forall t :: t in s.queue ==> !s.waiters[t].granted)
    && Ascending(s.queue) && Ascending(s.log)
    && (s.log != [] ==> s.log[|s.log| - 1] < s.nextTicket)
    && (s.log != [] && s.queue != [] ==> s.log[|s.log| - 1] < s.queue[0])
  }

  ghost predicate TransportOk(s: Client) {
    && s.transport.generation <= s.generation
    && (forall t :: t in s.holders ==>
          s.holders[t].serial == s.transport.serial && s.holders[t].generation == s.transport.generation)
    && (forall x :: x in s.stops ==> StopOk(s, x))
  }

  /** A stop reaches exactly the transport that was installed when it was asked for, or an older one. */
  ghost predicate StopOk(s: Client, x: Stop) {
    && x.cutoff < s.generation && x.serial <= s.transport.serial
    && (s.transport.generation <= x.cutoff || s.transport.serial > x.serial)
    && (s.transport.serial > x.serial ==> s.transport.generation > x.cutoff)
  }

  ghost predicate FlightsOk(s: Client) {
    forall f :: f in s.flights && !s.flights[f].completed ==> s.flight == Some(f)
  }

  ghost predicate Inv(s: Client) {
    OneOwner(s) && Tickets(s) && TransportOk(s) && FlightsOk(s)
  }

  lemma {:induction false} WithoutKeeps(q: seq<nat>, t: nat)
    ensures forall x :: x in Without(q, t) <==> x in q && x != t
  {
    if q != [] {
      WithoutKeeps(q[1..], t);
      assert q == [q[0]] + q[1..];
    }
  }

  lemma {:induction false} WithoutAscending(q: seq<nat>, t: nat)
    requires Ascending(q)
    ensures Ascending(Without(q, t))
    ensures Without(q, t) != [] ==> q[0] <= Without(q, t)[0]
  {
    hide Ascending;
    if q != [] {
      var rest := Without(q[1..], t);
      AscendingRest(q);
      WithoutAscending(q[1..], t);
      assert rest != [] ==> q[0] < rest[0];
      if q[0] != t {
        assert Without(q, t) == [q[0]] + rest;
        AscendingCons(q[0], rest);
      } else {
        assert Without(q, t) == rest;
      }
    } else {
      AscendingNone();
    }
  }

  lemma AscendingRest(q: seq<nat>)
    requires Ascending(q) && q != []
    ensures Ascending(q[1..]) && (|q| > 1 ==> q[0] < q[1])
  {
  }

  lemma AscendingCons(t: nat, q: seq<nat>)
    requires Ascending(q) && (q != [] ==> t < q[0])
    ensures Ascending([t] + q)
  {
    assert forall i :: 0 <= i < |q| ==> t < q[i];
  }

  ghost predicate NoOwner(s: Client) {
    forall t :: !Owns(s, t)
  }

  ghost predicate OnlyOwner(s: Client, t: nat) {
    Owns(s, t) && forall u :: Owns(s, u) ==> u == t
  }

  lemma AscendingTail(q: seq<nat>, k: nat)
    requires Ascending(q) && k < |q|
    ensures Ascending(q[k + 1..]) && q[0] <= q[k] && q[k] !in q[k + 1..]
    ensures forall t :: t in q[k + 1..] ==> t in q
    ensures k + 1 < |q| ==> q[k] < q[k + 1..][0]
  {
  }

  lemma AscendingAppend(q: seq<nat>, t: nat)
    requires Ascending(q) && (q != [] ==> q[|q| - 1] < t)
    ensures Ascending(q + [t])
  {
  }

  lemma AscendingNone()
    ensures Ascending([])
  {
  }

  lemma HandOnTickets(s: Client)
    requires Tickets(s)
    ensures Tickets(HandOn(s)) && HandOn(s).waiters.Keys == s.waiters.Keys
  {
    hide Ascending, FirstWanting, Wants;
    var k := FirstWanting(s, s.queue);
    if k < |s.queue| {
      var t := s.queue[k];
      assert t in s.queue;
      AscendingTail(s.queue, k);
      AscendingAppend(s.log, t);
    } else {
      AscendingNone();
    }
  }

  lemma HandOnOwner(s: Client)
    requires QueueOk(s) && NoOwner(s)
    ensures var r := HandOn(s);
      && (FirstWanting(s, s.queue) < |s.queue| ==> OnlyOwner(r, s.queue[FirstWanting(s, s.queue)]))
      && (FirstWanting(s, s.queue) == |s.queue| ==> NoOwner(r))
  {
    var r := HandOn(s);
    var k := FirstWanting(s, s.queue);
    forall u | Owns(r, u) ensures k < |s.queue| && u == s.queue[k] {
      assert !Owns(s, u);
    }
  }

  /** Releasing a gate that nobody owns any more. */
  lemma ReleaseOk(s: Client)
    requires Tickets(s) && NoOwner(s) && s.busy && |s.log| == s.returned + 1
    ensures OneOwner(Release(s)) && Tickets(Release(s))
  {
    hide Skip, Ascending, FirstWanting, Wants;
    var m := s.(returned := s.returned + 1);
    assert forall t :: !Owns(m, t) by {
      forall t ensures !Owns(m, t) { assert !Owns(s, t); }
    }
    assert Tickets(m);
    HandOnTickets(m);
    HandOnOwner(m);
    hide Tickets, Owns;
    var k := FirstWanting(m, m.queue);
    if k < |m.queue| {
      assert Owns(Release(s), m.queue[k]);
    }
  }

  lemma ReleaseInv(s: Client)
    requires Tickets(s) && NoOwner(s) && s.busy && |s.log| == s.returned + 1 && TransportOk(s) && FlightsOk(s)
    ensures Inv(Release(s))
  {
    ReleaseOk(s);
    hide OneOwner, Tickets, FirstWanting, Skip;
    assert s.holders == Release(s).holders;
  }

  lemma BeginInv(s: Client, t: nat, goal: Goal, token: nat)
    requires Tickets(s) && NoOwner(s) && s.busy && |s.log| == s.returned + 1 && TransportOk(s) && FlightsOk(s)
    requires t < s.nextTicket && t !in s.waiters && Current(s, token)
    ensures Inv(Begin(s, t, goal, token))
  {
    var r := Begin(s, t, goal, token);
    if goal.ToExchange? && !ActiveOn(s, token) {
      ReleaseInv(s);
    } else {
      assert forall x :: x in s.holders ==> Owns(s, x);
      assert s.holders == map[];
      assert Owns(r, t);
      forall x | Owns(r, x) ensures x == t {
        assert !Owns(s, x);
      }
      hide Ascending;
    }
  }

  lemma OwnersOf(s: Client)
    requires OneOwner(s) && !s.busy
    ensures NoOwner(s)
  {
  }

  lemma AcquireInv(s: Client, goal: Goal, token: nat)
    requires Inv(s) && Enabled(s, Acquire(goal, token))
    ensures Inv(DoAcquire(s, goal, token))
  {
    hide OneOwner, Tickets, TransportOk, Begin;
    var m := if goal.ToConnect? && goal.flight in s.flights
             then s.(flights := s.flights[goal.flight := s.flights[goal.flight].(started := true)]) else s;
    FieldsOnly(s, m);
    if !Current(m, token) {
      FieldsOnly(m, Refuse(m, goal));
    } else {
      var t := m.nextTicket;
      if m.busy {
        EnqueueInv(m, Waiter(goal, token, false, false));
      } else {
        TakeInv(m, goal, token);
      }
    }
  }

  lemma TakeInv(s: Client, goal: Goal, token: nat)
    requires Inv(s) && !s.busy && Current(s, token)
    ensures var t := s.nextTicket;
      Inv(Begin(s.(nextTicket := t + 1, busy := true, log := s.log + [t]), t, goal, token))
  {
    var t := s.nextTicket;
    var n := s.(nextTicket := t + 1, busy := true, log := s.log + [t]);
    OwnersOf(s);
    TakeTickets(s);
    assert NoOwner(n) by {
      forall x ensures !Owns(n, x) { assert !Owns(s, x); }
    }
    BeginInv(n, t, goal, token);
  }

  lemma TakeTickets(s: Client)
    requires Tickets(s) && s.queue == []
    ensures Tickets(s.(nextTicket := s.nextTicket + 1, busy := true, log := s.log + [s.nextTicket]))
  {
    AscendingAppend(s.log, s.nextTicket);
  }

  /** A step that leaves the gate and the transport alone and only completes flights. */
  lemma FieldsOnly(s: Client, r: Client)
    requires Inv(s) && r == s.(flights := r.flights) && FlightsOk(r)
    ensures Inv(r)
  {
    assert forall t :: Owns(r, t) <==> Owns(s, t);
    hide Ascending;
  }

  lemma EnqueueTickets(s: Client, w: Waiter)
    requires Tickets(s) && !w.granted
    ensures var t := s.nextTicket;
      Tickets(s.(nextTicket := t + 1, queue := s.queue + [t], waiters := s.waiters[t := w]))
  {
    if s.queue != [] {
      assert s.queue[|s.queue| - 1] in s.queue;
    }
    AscendingAppend(s.queue, s.nextTicket);
    hide Ascending;
  }

  lemma EnqueueInv(s: Client, w: Waiter)
    requires Inv(s) && s.busy && !w.granted
    ensures var t := s.nextTicket;
      Inv(s.(nextTicket := t + 1, queue := s.queue + [t], waiters := s.waiters[t := w]))
  {
    EnqueueTickets(s, w);
    var t := s.nextTicket;
    var r := s.(nextTicket := t + 1, queue := s.queue + [t], waiters := s.waiters[t := w]);
    assert forall x :: Owns(r, x) <==> Owns(s, x);
    hide Tickets, Owns;
  }

  lemma UnregisterTickets(s: Client, t: nat)
    requires Tickets(s)
    ensures Tickets(s.(waiters := s.waiters - {t}, queue := Without(s.queue, t)))
  {
    WithoutKeeps(s.queue, t);
    WithoutAscending(s.queue, t);
    hide Ascending, Without;
  }

  /** Taking a suspended coroutine out of the waiters and the queue. */
  lemma UnregisterOk(s: Client, t: nat)
    requires Inv(s) && t in s.waiters
    ensures var m := s.(waiters := s.waiters - {t}, queue := Without(s.queue, t));
      && Tickets(m) && TransportOk(m) && FlightsOk(m) && t !in m.waiters
      && (!s.waiters[t].granted ==> OneOwner(m))
      && (s.waiters[t].granted ==> NoOwner(m) && s.busy)
  {
    var m := s.(waiters := s.waiters - {t}, queue := Without(s.queue, t));
    UnregisterTickets(s, t);
    assert t !in s.holders;
    hide Tickets;
    UnregisterOwner(s, m, t);
    hide OneOwner, NoOwner, Without;
  }

  lemma UnregisterOwner(s: Client, m: Client, t: nat)
    requires OneOwner(s) && t in s.waiters && t !in s.holders
    requires m.waiters == s.waiters - {t} && m.holders == s.holders && m.busy == s.busy
    requires m.log == s.log && m.returned == s.returned && (s.queue == [] ==> m.queue == [])
    ensures !s.waiters[t].granted ==> OneOwner(m)
    ensures s.waiters[t].granted ==> NoOwner(m) && s.busy
  {
    forall x | Owns(m, x) ensures Owns(s, x) && x != t {
    }
    if s.waiters[t].granted {
      assert Owns(s, t);
    } else {
      assert forall x :: Owns(s, x) ==> Owns(m, x);
    }
  }

  lemma WakeInv(s: Client, t: nat, ok: bool)
    requires Inv(s) && t in s.waiters
    ensures Inv(DoWake(s, t, ok))
  {
    var w := s.waiters[t];
    var m := s.(waiters := s.waiters - {t}, queue := Without(s.queue, t));
    UnregisterOk(s, t);
    assert t < s.nextTicket;
    if !w.granted {
      FieldsOnly(m, Refuse(m, w.goal));
    } else if ok && Current(m, w.generation) {
      BeginInv(m, t, w.goal, w.generation);
    } else {
      RefuseKeeps(m, w.goal);
      ReleaseInv(Refuse(m, w.goal));
    }
  }

  lemma RefuseKeeps(s: Client, goal: Goal)
    requires Tickets(s) && NoOwner(s) && TransportOk(s) && FlightsOk(s)
    ensures var r := Refuse(s, goal);
      Tickets(r) && NoOwner(r) && TransportOk(r) && FlightsOk(r)
  {
    assert forall x :: Owns(Refuse(s, goal), x) ==> Owns(s, x);
  }

  /** The holder gives its lease back after touching only the phase of the transport and the flights. */
  lemma LeaveInv(s: Client, r: Client, t: nat)
    requires Inv(s) && t in s.holders
    requires r == s.(transport := r.transport, flights := r.flights) && FlightsOk(r)
    requires r.transport == s.transport.(phase := r.transport.phase)
    ensures Inv(Release(DropHolder(r, t)))
  {
    var m := DropHolder(r, t);
    assert Owns(s, t);
    assert NoOwner(m) by {
      forall x ensures !Owns(m, x) {
        if Owns(m, x) {
          assert Owns(s, x);
        }
      }
    }
    ReleaseInv(m);
  }

  lemma ConnectEndsInv(s: Client, t: nat, ok: bool, http2: bool)
    requires Inv(s) && t in s.holders && s.holders[t].job.Connecting?
    ensures Inv(DoConnectEnds(s, t, ok, http2))
  {
    var h := s.holders[t];
    var m := Complete(s, h.job.flight);
    if ok && Current(m, h.generation) {
      var n := m.(transport := m.transport.(phase := Active));
      if http2 {
        SessionStarts(s, n.(holders := n.holders[t := h.(job := RunningSession)]), t);
      } else {
        LeaveInv(s, n, t);
      }
    } else {
      LeaveInv(s, Disconnect(m, h.generation), t);
    }
  }

  /** The lease moves from the connect coroutine to the session task. */
  lemma SessionStarts(s: Client, r: Client, t: nat)
    requires Inv(s) && t in s.holders && FlightsOk(r)
    requires r == s.(holders := s.holders[t := s.holders[t].(job := RunningSession)], flights := r.flights,
      transport := r.transport)
    requires r.transport == s.transport.(phase := r.transport.phase)
    ensures Inv(r)
  {
    assert forall x :: Owns(r, x) <==> Owns(s, x);
    hide Ascending, Owns;
  }

  lemma CloseInv(s: Client, terminal: bool)
    requires Inv(s)
    ensures Inv(Step(s, Close(terminal)))
  {
    var r := Step(s, Close(terminal));
    assert forall x :: Owns(r, x) <==> Owns(s, x);
    hide Ascending, Owns;
  }

  /** Marking waiters as abandoned changes neither tickets nor owners. */
  lemma AbandonOk(s: Client, r: Client)
    requires OneOwner(s) && Tickets(s)
    requires r.waiters.Keys == s.waiters.Keys
    requires (forall t :: t in s.waiters ==> r.waiters[t].granted == s.waiters[t].granted)
    requires r.busy == s.busy && r.queue == s.queue && r.holders == s.holders && r.nextTicket == s.nextTicket
    requires r.log == s.log && r.returned == s.returned
    ensures OneOwner(r) && Tickets(r)
  {
    assert forall x :: Owns(r, x) <==> Owns(s, x);
    hide Ascending, Owns;
  }

  lemma StopTransport(s: Client, stop: Stop)
    requires TransportOk(s) && stop in s.stops
    ensures TransportOk(DoStop(s, stop))
  {
  }

  lemma StopInv(s: Client, stop: Stop)
    requires Inv(s) && stop in s.stops
    ensures Inv(DoStop(s, stop))
  {
    hide OneOwner, Tickets, TransportOk, DoStop;
    StopTransport(s, stop);
    StopFrame(s, stop);
    AbandonOk(s, DoStop(s, stop));
  }

  lemma StopFrame(s: Client, stop: Stop)
    ensures var r := DoStop(s, stop);
      && r == s.(stops := r.stops, transport := r.transport, waiters := r.waiters)
      && r.waiters.Keys == s.waiters.Keys
      && (forall t :: t in s.waiters ==> r.waiters[t].granted == s.waiters[t].granted)
  {
  }

  lemma InvStep(s: Client, e: Event)
    requires Inv(s) && Enabled(s, e)
    ensures Inv(Step(s, e))
  {
    match e {
      case StartFlight(f, token) =>
        var r := Step(s, e);
        assert forall x :: Owns(r, x) <==> Owns(s, x);
        hide Ascending, Owns;
      case Acquire(goal, token) => AcquireInv(s, goal, token);
      case Wake(t, ok) => WakeInv(s, t, ok);
      case ConnectEnds(t, ok, http2) => ConnectEndsInv(s, t, ok, http2);
      case ExchangeEnds(t, keep) =>
        var g := s.holders[t].generation;
        LeaveInv(s, if keep && Current(s, g) then s else Disconnect(s, g), t);
      case SessionEnds(t) => LeaveInv(s, Disconnect(s, s.holders[t].generation), t);
      case Close(terminal) => CloseInv(s, terminal);
      case RunStop(stop) => StopInv(s, stop);
    }
  }

  // ---------------------------------------------------------------- whole runs

  ghost predicate IsRun(events: seq<Event>, states: seq<Client>) {
    && |states| == |events| + 1
    && states[0] == Init()
    && forall i :: 0 <= i < |events| ==> Enabled(states[i], events[i]) && states[i + 1] == Step(states[i], events[i])
  }

  lemma {:induction false} RunInv(events: seq<Event>, states: seq<Client>, i: nat)
    requires IsRun(events, states) && i < |states|
    ensures Inv(states[i])
  {
    hide Step, Enabled;
    if i == 0 {
      assert forall t :: !Owns(Init(), t);
    } else {
      RunInv(events, states, i - 1);
      InvStep(states[i - 1], events[i - 1]);
    }
  }

  /**
   One owner at most; busy exactly when there is one; a free gate has no queue; no grant is lost or returned
   twice.
   */
  lemma GateIsExclusive(events: seq<Event>, states: seq<Client>, i: nat)
    requires IsRun(events, states) && i < |states|
    ensures var s := states[i];
      && (forall t, u :: Owns(s, t) && Owns(s, u) ==> t == u)
      && (s.busy <==> exists t :: Owns(s, t))
      && (!s.busy ==> s.queue == [])
      && |s.log| == s.returned + (if s.busy then 1 else 0)
  {
    RunInv(events, states, i);
  }

  /** The gate goes to tickets in the order they were drawn, and past nobody who still wants it. */
  lemma GateIsFair(events: seq<Event>, states: seq<Client>, i: nat)
    requires IsRun(events, states) && i < |states|
    ensures Ascending(states[i].log)
    ensures forall t, u :: t in states[i].log && u in states[i].queue ==> t < u
  {
    RunInv(events, states, i);
    var s := states[i];
    forall t, u | t in s.log && u in s.queue ensures t < u {
      var a :| 0 <= a < |s.log| && s.log[a] == t;
      var b :| 0 <= b < |s.queue| && s.queue[b] == u;
      assert s.log[a] <= s.log[|s.log| - 1] < s.queue[0] <= s.queue[b];
    }
  }

  /**
   A release serves the first waiter in the queue that still wants the gate; everyone before it is told to give
   up.
   */
  lemma ReleaseServesFirst(s: Client, k: nat)
    requires QueueOk(s) && Ascending(s.queue)
    requires k < |s.queue| && Wants(s, s.queue[k]) && forall i :: 0 <= i < k ==> !Wants(s, s.queue[i])
    ensures var r := Release(s);
      && r.log == s.log + [s.queue[k]] && r.waiters[s.queue[k]].granted && r.queue == s.queue[k + 1..]
      && (forall i :: 0 <= i < k ==> r.waiters[s.queue[i]] == s.waiters[s.queue[i]].(abandoned := true))
  {
    var m := s.(returned := s.returned + 1);
    assert FirstWanting(m, m.queue) == k by {
      assert Wants(m, m.queue[k]);
      assert forall i :: 0 <= i < k ==> !Wants(m, s.queue[i]);
    }
    SkipMarks(m, k);
    hide Skip, FirstWanting, Ascending;
  }

  lemma SkipMarks(s: Client, k: nat)
    requires QueueOk(s) && Ascending(s.queue) && k < |s.queue|
    ensures forall i :: 0 <= i < k ==>
      s.queue[i] in s.waiters && s.queue[i] != s.queue[k] && s.queue[i] in Skip(s, s.queue[..k])
      && Skip(s, s.queue[..k])[s.queue[i]] == s.waiters[s.queue[i]].(abandoned := true)
  {
    forall i | 0 <= i < k
      ensures s.queue[i] in s.waiters && s.queue[i] != s.queue[k] && s.queue[i] in Skip(s, s.queue[..k])
      ensures Skip(s, s.queue[..k])[s.queue[i]] == s.waiters[s.queue[i]].(abandoned := true)
    {
      assert s.queue[i] in s.queue && s.queue[..k][i] == s.queue[i];
    }
  }

  /** While an exchange, a session or a connect holds the gate, the transport is the one it started with. */
  lemma HolderKeepsTransport(events: seq<Event>, states: seq<Client>, i: nat, t: nat)
    requires IsRun(events, states) && i < |states| && t in states[i].holders
    ensures var s := states[i];
      s.transport.serial == s.holders[t].serial && s.transport.generation == s.holders[t].generation
  {
    RunInv(events, states, i);
  }

  /** No step replaces the transport of somebody who holds the gate before and after it. */
  lemma {:induction false} TransportIsStable(events: seq<Event>, states: seq<Client>, i: nat, j: nat, t: nat)
    requires IsRun(events, states) && i <= j < |states|
    requires forall k :: i <= k <= j ==> t in states[k].holders
    ensures states[j].transport.serial == states[i].transport.serial
    ensures states[j].transport.generation == states[i].transport.generation
    ensures states[j].holders[t].generation == states[i].holders[t].generation
  {
    hide Step, Enabled;
    if i < j {
      TransportIsStable(events, states, i, j - 1, t);
      RunInv(events, states, j - 1);
      RunInv(events, states, j);
      HolderStays(states[j - 1], events[j - 1], t);
    }
  }

  lemma ReleaseFrame(s: Client)
    ensures Release(s).holders == s.holders && Release(s).transport == s.transport
  {
  }

  lemma BeginFrame(s: Client, t: nat, goal: Goal, token: nat, x: nat)
    requires x in s.holders && x != t
    ensures x in Begin(s, t, goal, token).holders && Begin(s, t, goal, token).holders[x] == s.holders[x]
  {
    ReleaseFrame(s);
    hide Release;
  }

  lemma AcquireFrame(s: Client, goal: Goal, token: nat, x: nat)
    requires x in s.holders && x < s.nextTicket
    ensures var r := DoAcquire(s, goal, token); x in r.holders && r.holders[x] == s.holders[x]
  {
    hide Begin;
    var m := if goal.ToConnect? && goal.flight in s.flights
             then s.(flights := s.flights[goal.flight := s.flights[goal.flight].(started := true)]) else s;
    var t := m.nextTicket;
    BeginFrame(m.(nextTicket := t + 1, busy := true, log := m.log + [t]), t, goal, token, x);
  }

  lemma WakeFrame(s: Client, t: nat, ok: bool, x: nat)
    requires t in s.waiters && x in s.holders && x != t
    ensures var r := DoWake(s, t, ok); x in r.holders && r.holders[x] == s.holders[x]
  {
    hide Begin, Release, Without;
    var w := s.waiters[t];
    var m := s.(waiters := s.waiters - {t}, queue := Without(s.queue, t));
    BeginFrame(m, t, w.goal, w.generation, x);
    ReleaseFrame(Refuse(m, w.goal));
  }

  lemma ConnectFrame(s: Client, t: nat, ok: bool, http2: bool, x: nat)
    requires t in s.holders && s.holders[t].job.Connecting? && x in s.holders
    ensures var r := DoConnectEnds(s, t, ok, http2);
      && (x in r.holders ==> r.holders[x].serial == s.holders[x].serial)
      && (x in r.holders ==> r.holders[x].generation == s.holders[x].generation)
  {
    hide Release;
    var h := s.holders[t];
    var m := Complete(s, h.job.flight);
    ReleaseFrame(DropHolder(m.(transport := m.transport.(phase := Active)), t));
    ReleaseFrame(DropHolder(Disconnect(m, h.generation), t));
  }

  lemma HolderStays(s: Client, e: Event, t: nat)
    requires Inv(s) && Enabled(s, e) && t in s.holders && t in Step(s, e).holders
    ensures Step(s, e).holders[t].serial == s.holders[t].serial
    ensures Step(s, e).holders[t].generation == s.holders[t].generation
  {
    assert t < s.nextTicket && t !in s.waiters;
    hide Inv, DoAcquire, DoWake, DoConnectEnds, Release;
    match e {
      case Acquire(goal, token) => AcquireFrame(s, goal, token, t);
      case Wake(x, ok) => WakeFrame(s, x, ok, t);
      case ConnectEnds(x, ok, http2) => ConnectFrame(s, x, ok, http2, t);
      case ExchangeEnds(x, keep) =>
        var g := s.holders[x].generation;
        ReleaseFrame(DropHolder(if keep && Current(s, g) then s else Disconnect(s, g), x));
      case SessionEnds(x) => ReleaseFrame(DropHolder(Disconnect(s, s.holders[x].generation), x));
      case _ =>
    }
  }

  /** A posted stop closes the transport exactly when it was installed before the close was asked for. */
  lemma StopClosesOldOnly(events: seq<Event>, states: seq<Client>, i: nat, stop: Stop)
    requires IsRun(events, states) && i < |states| && stop in states[i].stops
    ensures var s, r := states[i], DoStop(states[i], stop);
      && (s.transport.serial > stop.serial ==> r.transport == s.transport)
      && (s.transport.serial <= stop.serial ==> r.transport == s.transport.(phase := Closed))
  {
    RunInv(events, states, i);
    assert StopOk(states[i], stop);
    hide Inv;
  }

  /**
   Who may close the installed transport: whoever holds the gate with it, and a close that was asked for while it
   was installed.
   */
  ghost predicate MayClose(s: Client, e: Event) {
    match e
    case ConnectEnds(t, _, _) => t in s.holders && s.holders[t].serial == s.transport.serial
    case ExchangeEnds(t, _) => t in s.holders && s.holders[t].serial == s.transport.serial
    case SessionEnds(t) => t in s.holders && s.holders[t].serial == s.transport.serial
    case RunStop(stop) => s.transport.serial <= stop.serial
    case _ => false
  }

  /** No step closes a newer transport than the one it was about: not with a stale token, and not by a late stop. */
  lemma OnlyOwnTransportIsClosed(events: seq<Event>, states: seq<Client>, i: nat)
    requires IsRun(events, states) && i < |events| && states[i].transport.phase != Closed
    requires states[i + 1].transport.serial == states[i].transport.serial && states[i + 1].transport.phase == Closed
    ensures MayClose(states[i], events[i])
  {
    RunInv(events, states, i);
    var s, e := states[i], events[i];
    match e
    case Acquire(goal, token) => AcquireCloses(s, goal, token);
    case Wake(t, ok) => WakeCloses(s, t, ok);
    case RunStop(stop) => StopClosesOldOnly(events, states, i, stop);
    case _ =>
  }

  lemma BeginCloses(s: Client, t: nat, goal: Goal, token: nat)
    ensures var r := Begin(s, t, goal, token); r.transport == s.transport || r.transport.serial > s.transport.serial
  {
    hide FirstWanting, Skip;
  }

  lemma AcquireCloses(s: Client, goal: Goal, token: nat)
    ensures var r := DoAcquire(s, goal, token); r.transport == s.transport || r.transport.serial > s.transport.serial
  {
    hide Begin;
    var f := if goal.ToConnect? && goal.flight in s.flights
             then s.(flights := s.flights[goal.flight := s.flights[goal.flight].(started := true)]) else s;
    var m := f.(nextTicket := f.nextTicket + 1);
    BeginCloses(m.(busy := true, log := m.log + [f.nextTicket]), f.nextTicket, goal, token);
  }

  lemma WakeCloses(s: Client, t: nat, ok: bool)
    requires t in s.waiters
    ensures var r := DoWake(s, t, ok); r.transport == s.transport || r.transport.serial > s.transport.serial
  {
    hide Begin, FirstWanting, Skip, Without;
    var w := s.waiters[t];
    BeginCloses(s.(waiters := s.waiters - {t}, queue := Without(s.queue, t)), t, w.goal, w.generation);
  }

  /**
   A close from another thread between the last look at the generation and the installation of a transport leaves
   the same client as a close right after the installation, and a stop with the same cutoff.
   */
  lemma CloseCommutes(s: Client, t: nat, f: nat, token: nat, terminal: bool)
    ensures var inside := Install(CloseCall(s, terminal), t, f, token);
      var after := CloseCall(Install(s, t, f, token), terminal);
      && inside.(stops := s.stops) == after.(stops := s.stops)
      && inside.stops == s.stops + {Stop(s.generation, s.transport.serial)}
      && after.stops == s.stops + {Stop(s.generation, after.transport.serial)}
  {
  }

  /** At most one connect flight is under way. */
  lemma OneFlight(events: seq<Event>, states: seq<Client>, i: nat, f: nat, g: nat)
    requires IsRun(events, states) && i < |states|
    requires f in states[i].flights && g in states[i].flights
    requires !states[i].flights[f].completed && !states[i].flights[g].completed
    ensures f == g
  {
    RunInv(events, states, i);
  }

  // ---------------------------------------------------------------- the code on the event loop

  /** Pops waiters until one still wants the gate; the others are marked abandoned. */
  method NextWaiter(queue: seq<nat>, before: map<nat, Waiter>, generation: nat, stopping: bool, ghost s: Client)
    returns (waiters: map<nat, Waiter>, k: nat)
    requires queue == s.queue && before == s.waiters && generation == s.generation && stopping == s.stopping
    requires QueueOk(s) && Ascending(s.queue)
    ensures k == FirstWanting(s, s.queue) && waiters == Skip(s, s.queue[..k])
  {
    hide Skip, FirstWanting, Ascending;
    waiters, k := before, 0;
    SkipNone(s);
    while k < |queue|
      invariant k <= |queue| && waiters == Skip(s, queue[..k])
      invariant forall i :: 0 <= i < k ==> !Wants(s, queue[i])
    {
      var t := queue[k];
      SkipKeeps(s, k);
      if !waiters[t].abandoned && !stopping && generation == waiters[t].generation {
        return;
      }
      SkipNext(s, k);
      waiters := waiters[t := waiters[t].(abandoned := true)];
      k := k + 1;
    }
  }

  lemma SkipNone(s: Client)
    ensures Skip(s, s.queue[..0]) == s.waiters
  {
  }

  lemma SkipNext(s: Client, k: nat)
    requires k < |s.queue| && s.queue[k] in s.waiters && s.queue[k] in Skip(s, s.queue[..k])
    ensures var t := s.queue[k];
      Skip(s, s.queue[..k + 1]) == Skip(s, s.queue[..k])[t := Skip(s, s.queue[..k])[t].(abandoned := true)]
  {
    assert s.queue[..k + 1] == s.queue[..k] + [s.queue[k]];
  }

  lemma SkipKeeps(s: Client, k: nat)
    requires QueueOk(s) && Ascending(s.queue)
    ensures k < |s.queue| ==>
      s.queue[k] in Skip(s, s.queue[..k]) && Skip(s, s.queue[..k])[s.queue[k]] == s.waiters[s.queue[k]]
  {
    if k < |s.queue| {
      assert s.queue[k] in s.queue && s.queue[k] !in s.queue[..k];
    }
  }

  /** Marks every queued waiter of an old generation. */
  method AbandonOld(queue: seq<nat>, before: map<nat, Waiter>, cutoff: nat) returns (waiters: map<nat, Waiter>)
    requires forall t :: t in queue ==> t in before
    ensures waiters == map t | t in before :: if t in queue then Abandon(before[t], cutoff) else before[t]
  {
    waiters := before;
    for i := 0 to |queue|
      invariant waiters.Keys == before.Keys
      invariant forall t :: t in before ==>
        waiters[t] == if t in queue[..i] then Abandon(before[t], cutoff) else before[t]
    {
      var t := queue[i];
      assert t in queue && queue[..i + 1] == queue[..i] + [t];
      if waiters[t].generation <= cutoff {
        waiters := waiters[t := waiters[t].(abandoned := true)];
      }
    }
    assert queue[..|queue|] == queue;
  }

  class Core {
    var busy: bool
    var queue: seq<nat>
    var waiters: map<nat, Waiter>
    var generation: nat
    var stopping: bool
    var transport: Transport
    ghost var s: Client

    ghost predicate Synced()
      reads this
    {
      && busy == s.busy && queue == s.queue && waiters == s.waiters
      && generation == s.generation && stopping == s.stopping && transport == s.transport
    }

    constructor ()
      ensures Synced() && s == Init() && Inv(s)
    {
      busy, queue, waiters, generation, stopping := false, [], map[], 1, false;
      transport, s := Transport(0, 0, Fresh), Init();
      new;
      assert forall t :: !Owns(Init(), t);
    }

    method ReleaseGate()
      requires Synced() && QueueOk(s) && Ascending(s.queue)
      modifies this
      ensures Synced() && s == Release(old(s))
    {
      hide Ascending, Skip, FirstWanting;
      s := s.(returned := s.returned + 1);
      var k;
      waiters, k := NextWaiter(queue, waiters, generation, stopping, s);
      SkipKeeps(s, k);
      if k == |queue| {
        queue, busy := [], false;
      } else {
        var t := queue[k];
        waiters := waiters[t := waiters[t].(granted := true)];
        queue := queue[k + 1..];
      }
      s := HandOn(s);
    }

    /** The guard of a suspended coroutine: forget the waiter, and give back a grant that nobody claimed. */
    method AbandonGate(t: nat)
      requires Synced() && Inv(s) && t in waiters
      modifies this
      ensures Synced()
      ensures var m := old(s).(waiters := old(s).waiters - {t}, queue := Without(old(s).queue, t));
        s == if old(s).waiters[t].granted then Release(m) else m
    {
      UnregisterOk(s, t);
      hide OneOwner, TransportOk, FlightsOk, NoOwner;
      var w := waiters[t];
      queue := Remove(queue, t);
      waiters := waiters - {t};
      s := s.(waiters := s.waiters - {t}, queue := Without(s.queue, t));
      if w.granted {
        ReleaseGate();
      }
    }

    method DisconnectToken(token: nat)
      requires Synced()
      modifies this
      ensures Synced() && s == Disconnect(old(s), token)
    {
      if transport.generation != token {
        return;
      }
      transport := transport.(phase := Closed);
      s := Disconnect(s, token);
    }

    method ScheduleStop(terminal: bool) returns (cutoff: nat)
      requires Synced()
      modifies this
      ensures Synced() && s == Step(old(s), Close(terminal)) && Stop(cutoff, s.transport.serial) in s.stops
    {
      if terminal {
        stopping := true;
      }
      cutoff := generation;
      generation := generation + 1;
      s := Step(s, Close(terminal));
    }

    method StopOnLoop(cutoff: nat, ghost stop: Stop)
      requires Synced() && QueueOk(s) && stop in s.stops && stop.cutoff == cutoff
      modifies this
      ensures Synced() && s == DoStop(old(s), stop)
    {
      hide Abandon, DoStop;
      ghost var before := s;
      s := s.(stops := s.stops - {stop});
      if transport.generation <= cutoff {
        DisconnectToken(transport.generation);
      }
      ghost var mid := s;
      waiters := AbandonOld(queue, waiters, cutoff);
      s := mid.(waiters := waiters);
      StopIs(before, stop, mid, waiters);
    }
  }

  lemma StopIs(b: Client, stop: Stop, m: Client, waiters: map<nat, Waiter>)
    requires var c := b.(stops := b.stops - {stop});
      m == if c.transport.generation <= stop.cutoff then Disconnect(c, c.transport.generation) else c
    requires waiters ==
      map t | t in b.waiters :: if t in b.queue then Abandon(b.waiters[t], stop.cutoff) else b.waiters[t]
    ensures DoStop(b, stop) == m.(waiters := waiters)
  {
    hide Abandon;
  }

  method Remove(q: seq<nat>, t: nat) returns (r: seq<nat>)
    ensures r == Without(q, t)
  {
    r := [];
    var i := |q|;
    while i > 0
      invariant 0 <= i <= |q| && r == Without(q[i..], t)
    {
      i := i - 1;
      assert q[i..][1..] == q[i + 1..];
      if q[i] != t {
        r := [q[i]] + r;
      }
    }
    assert q[0..] == q;
  }
}
