/**
 What each step of an HTTP client comes to: who has the gate afterwards, what becomes of
 the transport, and that a connect flight which has started always has a coroutine.
 */
module ClientExact {
  import opened Base
  import opened ClientGate

  // ---------------------------------------------------------------- what a release leaves alone

  lemma ReleaseIs(s: Client)
    ensures var r := Release(s);
      && r.holders == s.holders && r.transport == s.transport && r.flights == s.flights && r.flight == s.flight
      && r.nextTicket == s.nextTicket && r.generation == s.generation && r.stopping == s.stopping
      && r.waiters.Keys == s.waiters.Keys
      && (forall t :: t in s.waiters ==> r.waiters[t].goal == s.waiters[t].goal)
  {
  }

  /** A release frees the gate exactly when no queued waiter still wants it. */
  lemma ReleaseFreesIff(s: Client)
    requires s.busy
    ensures !Release(s).busy <==>
      forall i :: 0 <= i < |s.queue| ==>
        !(s.queue[i] in s.waiters && !s.waiters[s.queue[i]].abandoned
          && !s.stopping && s.generation == s.waiters[s.queue[i]].generation)
    ensures !Release(s).busy ==> Release(s).queue == [] && Release(s).log == s.log
  {
    hide Skip;
    var m := s.(returned := s.returned + 1);
    var k := FirstWanting(m, m.queue);
    if k < |s.queue| {
      assert Wants(m, s.queue[k]);
    } else {
      assert forall i :: 0 <= i < |s.queue| ==> !Wants(m, m.queue[i]);
    }
  }

  // ---------------------------------------------------------------- asking for the gate

  ghost predicate NewTransport(s: Client, r: Client, token: nat) {
    r.transport == Transport(s.transport.serial + 1, token, Opening)
  }

  /** A client that has moved on refuses; the flight of a refused connect is over. */
  lemma RefusedIs(s: Client, goal: Goal, token: nat)
    requires Enabled(s, Acquire(goal, token)) && (s.stopping || s.generation != token)
    ensures var r := Step(s, Acquire(goal, token));
      && r == s.(flights := r.flights)
      && (goal.ToExchange? ==> r == s)
      && (goal.ToConnect? ==> goal.flight in r.flights && r.flights[goal.flight].completed)
  {
  }

  /** A busy gate queues the newcomer behind everyone else. */
  lemma QueuedIs(s: Client, goal: Goal, token: nat)
    requires Enabled(s, Acquire(goal, token)) && !s.stopping && s.generation == token && s.busy
    ensures var r := Step(s, Acquire(goal, token));
      && r.queue == s.queue + [s.nextTicket]
      && r.waiters == s.waiters[s.nextTicket := Waiter(goal, token, false, false)]
      && r.holders == s.holders && r.transport == s.transport && r.log == s.log && r.busy
  {
  }

  /**
   A free gate goes to the newcomer: to connect with a new transport, or to use the transport it finds active.
   Without an active one it leaves the gate free and comes back later.
   */
  lemma TakenIs(s: Client, goal: Goal, token: nat)
    requires Inv(s) && Enabled(s, Acquire(goal, token)) && !s.stopping && s.generation == token && !s.busy
    ensures var r, t := Step(s, Acquire(goal, token)), s.nextTicket;
      && (goal.ToConnect? ==>
            r.busy && NewTransport(s, r, token)
            && r.holders == map[t := Holder(Connecting(goal.flight), token, s.transport.serial + 1)])
      && (goal.ToExchange? && s.transport.phase == Active && s.transport.generation == token ==>
            r.busy && r.transport == s.transport
            && r.holders == map[t := Holder(Exchanging, token, s.transport.serial)])
      && (goal.ToExchange? && !(s.transport.phase == Active && s.transport.generation == token) ==>
            !r.busy && r.transport == s.transport && r.holders == map[] && r.queue == [])
  {
    assert s.queue == [];
    OwnersOf(s);
    NoHolders(s);
    hide Inv;
  }

  lemma NoHolders(s: Client)
    requires NoOwner(s)
    ensures s.holders == map[]
  {
    forall t ensures t !in s.holders {
      assert !Owns(s, t);
    }
  }

  // ---------------------------------------------------------------- waking up in the queue

  /** A coroutine that wakes is out of the queue; without the gate it changes nothing but its flight. */
  lemma WokenWithout(s: Client, t: nat, ok: bool)
    requires t in s.waiters && !s.waiters[t].granted
    ensures var r, w := Step(s, Wake(t, ok)), s.waiters[t];
      && r == s.(waiters := s.waiters - {t}, queue := Without(s.queue, t), flights := r.flights)
      && (w.goal.ToExchange? ==> r.flights == s.flights)
      && (w.goal.ToConnect? && w.goal.flight in s.flights ==>
            r.flights == s.flights[w.goal.flight := s.flights[w.goal.flight].(completed := true)])
  {
    hide Without;
  }

  /** With the gate, and still wanted, it goes on as if it had found the gate free. */
  lemma WokenWith(s: Client, t: nat)
    requires Inv(s) && t in s.waiters && s.waiters[t].granted
    requires !s.stopping && s.generation == s.waiters[t].generation
    ensures var r, w := Step(s, Wake(t, true)), s.waiters[t];
      && t !in r.waiters
      && (w.goal.ToConnect? ==>
            r.busy && NewTransport(s, r, w.generation)
            && r.holders == map[t := Holder(Connecting(w.goal.flight), w.generation, s.transport.serial + 1)])
      && (w.goal.ToExchange? && s.transport.phase == Active && s.transport.generation == w.generation ==>
            r.busy && r.transport == s.transport
            && r.holders == map[t := Holder(Exchanging, w.generation, s.transport.serial)])
      && (w.goal.ToExchange? && !(s.transport.phase == Active && s.transport.generation == w.generation) ==>
            r.transport == s.transport && r.holders == map[])
  {
    UnregisterOk(s, t);
    var m := s.(waiters := s.waiters - {t}, queue := Without(s.queue, t));
    NoHolders(m);
    ReleaseIs(m);
    hide Inv, Without, Release, Tickets, TransportOk, NoOwner;
  }

  /** With the gate, but destroyed or out of date, it passes the gate on and its flight is over. */
  lemma WokenLate(s: Client, t: nat, ok: bool)
    requires Inv(s) && t in s.waiters && s.waiters[t].granted
    requires !ok || s.stopping || s.generation != s.waiters[t].generation
    ensures var r, w := Step(s, Wake(t, ok)), s.waiters[t];
      && t !in r.waiters && r.holders == map[] && r.transport == s.transport && r.returned == s.returned + 1
      && (w.goal.ToConnect? && w.goal.flight in s.flights ==>
            w.goal.flight in r.flights && r.flights[w.goal.flight].completed)
  {
    UnregisterOk(s, t);
    var m := s.(waiters := s.waiters - {t}, queue := Without(s.queue, t));
    NoHolders(m);
    ReleaseIs(Refuse(m, s.waiters[t].goal));
    ReturnedOnce(Refuse(m, s.waiters[t].goal));
    hide Inv, Without, Release, Tickets, TransportOk, NoOwner;
  }

  lemma ReturnedOnce(s: Client)
    ensures Release(s).returned == s.returned + 1
  {
  }

  // ---------------------------------------------------------------- giving the gate back

  /** What every end of a job leaves alone. */
  ghost predicate Frame(s: Client, r: Client, t: nat)
    requires t in s.holders
  {
    && r.generation == s.generation && r.stopping == s.stopping && r.waiters.Keys == s.waiters.Keys
    && (forall u :: u in s.waiters ==> r.waiters[u].goal == s.waiters[u].goal)
    && (r.holders == s.holders - {t} || r.holders == s.holders[t := s.holders[t].(job := RunningSession)])
  }

  lemma ConnectFrame(s: Client, t: nat, ok: bool, http2: bool)
    requires Enabled(s, ConnectEnds(t, ok, http2))
    ensures var r := Step(s, ConnectEnds(t, ok, http2));
      Frame(s, r, t) && r.flights == Complete(s, s.holders[t].job.flight).flights
  {
    hide Release, Disconnect;
    var m := Complete(s, s.holders[t].job.flight);
    DisconnectIs(m, s.holders[t].generation);
    ReleaseIs(DropHolder(m.(transport := m.transport.(phase := Active)), t));
    ReleaseIs(DropHolder(Disconnect(m, s.holders[t].generation), t));
  }

  lemma DisconnectIs(s: Client, token: nat)
    ensures Disconnect(s, token) == s.(transport := Disconnect(s, token).transport)
  {
  }

  lemma EndFrame(s: Client, e: Event)
    requires Enabled(s, e) && (e.ExchangeEnds? || e.SessionEnds?)
    ensures Frame(s, Step(s, e), e.t) && Step(s, e).flights == s.flights
  {
    hide Release, Disconnect;
    DisconnectIs(s, s.holders[e.t].generation);
    ReleaseIs(DropHolder(s, e.t));
    ReleaseIs(DropHolder(Disconnect(s, s.holders[e.t].generation), e.t));
  }

  /** The end of a connect: its flight is over; the transport is active exactly when it worked and is still wanted. */
  lemma ConnectEndsIs(s: Client, t: nat, ok: bool, http2: bool)
    requires Inv(s) && Enabled(s, ConnectEnds(t, ok, http2))
    ensures var r, h := Step(s, ConnectEnds(t, ok, http2)), s.holders[t];
      var wanted := ok && !s.stopping && s.generation == h.generation;
      && (h.job.flight in s.flights ==> h.job.flight in r.flights && r.flights[h.job.flight].completed)
      && r.transport == s.transport.(phase := if wanted then Active else Closed)
      && (t in r.holders <==> wanted && http2)
      && (wanted && http2 ==> r.holders[t] == h.(job := RunningSession) && r.busy == s.busy)
  {
    var h := s.holders[t];
    var m := Complete(s, h.job.flight);
    assert h.generation == s.transport.generation;
    hide Inv, Release;
    if ok && Current(s, h.generation) {
      ReleaseIs(DropHolder(m.(transport := m.transport.(phase := Active)), t));
    } else {
      ReleaseIs(DropHolder(Disconnect(m, h.generation), t));
    }
  }

  /** The end of an exchange: the transport stays if the answer keeps it and the client has not moved on. */
  lemma ExchangeEndsIs(s: Client, t: nat, keep: bool)
    requires Inv(s) && Enabled(s, ExchangeEnds(t, keep))
    ensures var r, h := Step(s, ExchangeEnds(t, keep)), s.holders[t];
      && t !in r.holders && r.returned == s.returned + 1
      && (keep && !s.stopping && s.generation == h.generation ==> r.transport == s.transport)
      && (!keep || s.stopping || s.generation != h.generation ==>
            r.transport == s.transport.(phase := Closed))
  {
    var h := s.holders[t];
    assert h.generation == s.transport.generation;
    ReleaseIs(DropHolder(s, t));
    ReleaseIs(DropHolder(Disconnect(s, h.generation), t));
    ReturnedOnce(DropHolder(s, t));
    ReturnedOnce(DropHolder(Disconnect(s, h.generation), t));
    hide Inv, Release;
  }

  lemma SessionEndsIs(s: Client, t: nat)
    requires Inv(s) && Enabled(s, SessionEnds(t))
    ensures var r := Step(s, SessionEnds(t));
      && t !in r.holders && r.returned == s.returned + 1 && r.transport == s.transport.(phase := Closed)
  {
    var h := s.holders[t];
    assert h.generation == s.transport.generation;
    ReleaseIs(DropHolder(Disconnect(s, h.generation), t));
    ReturnedOnce(DropHolder(Disconnect(s, h.generation), t));
    hide Inv, Release;
  }

  /** A stop tells exactly the queued waiters of the generations up to its cutoff to give up. */
  lemma StopAbandons(s: Client, stop: Stop, t: nat)
    requires stop in s.stops && t in s.waiters
    ensures var r := Step(s, RunStop(stop));
      && t in r.waiters && r.waiters[t] == s.waiters[t].(abandoned := r.waiters[t].abandoned)
      && (r.waiters[t].abandoned <==>
            s.waiters[t].abandoned || (t in s.queue && s.waiters[t].generation <= stop.cutoff))
      && r.queue == s.queue && r.holders == s.holders && r.busy == s.busy
  {
  }

  // ---------------------------------------------------------------- the phase of the transport

  /** Unless the client has moved on, whoever holds the gate finds its transport in the phase it expects. */
  ghost predicate PhaseOk(s: Client) {
    forall t :: t in s.holders && !s.stopping && s.generation == s.holders[t].generation ==>
      s.transport.phase == if s.holders[t].job.Connecting? then Opening else Active
  }

  lemma OnlyHolder(s: Client, t: nat)
    requires OneOwner(s) && t in s.holders
    ensures s.holders == map[t := s.holders[t]]
  {
    forall u | u in s.holders ensures u == t {
      assert Owns(s, t) && Owns(s, u);
    }
  }

  lemma PhaseAcquire(s: Client, goal: Goal, token: nat)
    requires Inv(s) && PhaseOk(s) && Enabled(s, Acquire(goal, token))
    ensures PhaseOk(Step(s, Acquire(goal, token)))
  {
    if s.stopping || s.generation != token {
      RefusedIs(s, goal, token);
    } else if s.busy {
      QueuedIs(s, goal, token);
      KeepsGeneration(s, goal, token);
    } else {
      TakenIs(s, goal, token);
      KeepsGeneration(s, goal, token);
    }
    hide Inv, Step;
  }

  lemma KeepsGeneration(s: Client, goal: Goal, token: nat)
    requires Enabled(s, Acquire(goal, token))
    ensures var r := Step(s, Acquire(goal, token)); r.generation == s.generation && r.stopping == s.stopping
  {
    hide FirstWanting, Skip;
  }

  lemma PhaseWake(s: Client, t: nat, ok: bool)
    requires Inv(s) && PhaseOk(s) && t in s.waiters
    ensures PhaseOk(Step(s, Wake(t, ok)))
  {
    WakeKeepsGeneration(s, t, ok);
    if !s.waiters[t].granted {
      WokenWithout(s, t, ok);
    } else if !ok || s.stopping || s.generation != s.waiters[t].generation {
      WokenLate(s, t, ok);
    } else {
      WokenWith(s, t);
    }
    hide Inv, Step;
  }

  lemma WakeKeepsGeneration(s: Client, t: nat, ok: bool)
    requires t in s.waiters
    ensures var r := Step(s, Wake(t, ok)); r.generation == s.generation && r.stopping == s.stopping
  {
    hide Release, Without, Begin;
    var w := s.waiters[t];
    var m := s.(waiters := s.waiters - {t}, queue := Without(s.queue, t));
    ReleaseIs(Refuse(m, w.goal));
    BeginKeeps(m, t, w.goal, w.generation);
  }

  lemma BeginKeeps(s: Client, t: nat, goal: Goal, token: nat)
    ensures var r := Begin(s, t, goal, token); r.generation == s.generation && r.stopping == s.stopping
  {
    hide Release;
    ReleaseIs(s);
  }

  /** The only holder left is the session that a connect has turned into. */
  lemma LastHolder(s: Client, r: Client, t: nat)
    requires t in s.holders && s.holders == map[t := s.holders[t]] && Frame(s, r, t)
    requires t in r.holders ==> r.transport.phase == Active && r.holders[t].job == RunningSession
    ensures PhaseOk(r)
  {
  }

  lemma PhaseEnds(s: Client, e: Event)
    requires Inv(s) && PhaseOk(s) && Enabled(s, e) && (e.ConnectEnds? || e.ExchangeEnds? || e.SessionEnds?)
    ensures PhaseOk(Step(s, e))
  {
    OnlyHolder(s, e.t);
    hide Inv, Step, Frame, PhaseOk;
    match e {
      case ConnectEnds(t, ok, http2) =>
        ConnectFrame(s, t, ok, http2);
        ConnectEndsIs(s, t, ok, http2);
      case ExchangeEnds(t, keep) =>
        EndFrame(s, e);
        ExchangeEndsIs(s, t, keep);
      case SessionEnds(t) =>
        EndFrame(s, e);
        SessionEndsIs(s, t);
    }
    LastHolder(s, Step(s, e), e.t);
  }

  lemma PhaseStep(s: Client, e: Event)
    requires Inv(s) && PhaseOk(s) && Enabled(s, e)
    ensures PhaseOk(Step(s, e))
  {
    match e {
      case Acquire(goal, token) => PhaseAcquire(s, goal, token);
      case Wake(t, ok) => PhaseWake(s, t, ok);
      case StartFlight(_, _) =>
      case Close(_) =>
      case RunStop(stop) =>
        assert StopOk(s, stop);
      case _ => PhaseEnds(s, e);
    }
  }

  /** In every run, an exchange or a session that is still current has an active transport. */
  lemma {:induction false} HolderFindsPhase(events: seq<Event>, states: seq<Client>, i: nat)
    requires IsRun(events, states) && i < |states|
    ensures PhaseOk(states[i])
  {
    hide Step, Enabled, PhaseOk;
    if i == 0 {
      assert PhaseOk(Init()) by {
        InitPhase();
      }
    } else {
      HolderFindsPhase(events, states, i - 1);
      RunInv(events, states, i - 1);
      PhaseStep(states[i - 1], events[i - 1]);
    }
  }

  lemma InitPhase()
    ensures PhaseOk(Init())
  {
  }

  // ---------------------------------------------------------------- flights are carried

  /** Some coroutine is connecting for flight `f`, or waits for the gate to do so. */
  ghost predicate Carried(s: Client, f: nat) {
    || (exists t :: t in s.holders && s.holders[t].job == Connecting(f))
    || (exists t :: t in s.waiters && s.waiters[t].goal == ToConnect(f))
  }

  ghost predicate UnderWay(s: Client, f: nat) {
    f in s.flights && s.flights[f].started && !s.flights[f].completed
  }

  /** Holders and waiters that are still there carry what they carried. */
  ghost predicate Carries(s: Client, r: Client, f: nat) {
    && (forall t :: t in s.holders && s.holders[t].job == Connecting(f) ==>
          t in r.holders && r.holders[t].job == Connecting(f))
    && (forall t :: t in s.waiters && s.waiters[t].goal == ToConnect(f) ==>
          || (t in r.waiters && r.waiters[t].goal == ToConnect(f))
          || (t in r.holders && r.holders[t].job == Connecting(f)))
  }

  lemma StaysCarried(s: Client, r: Client, f: nat)
    requires Carried(s, f) && Carries(s, r, f)
    ensures Carried(r, f)
  {
  }

  lemma BeginCarries(s: Client, t: nat, goal: Goal, token: nat, f: nat)
    requires t !in s.holders
    ensures var r := Begin(s, t, goal, token);
      Carries(s, r, f) && (goal == ToConnect(f) ==> Carried(r, f)) && r.flights == s.flights
  {
    ReleaseIs(s);
    hide Release;
    if goal == ToConnect(f) {
      assert Begin(s, t, goal, token).holders[t].job == Connecting(f);
    }
  }

  lemma OtherFlights(s: Client, goal: Goal, token: nat, f: nat)
    requires Enabled(s, Acquire(goal, token)) && goal != ToConnect(f)
    ensures UnderWay(Step(s, Acquire(goal, token)), f) ==> UnderWay(s, f)
  {
    var m := if goal.ToConnect? && goal.flight in s.flights
             then s.(flights := s.flights[goal.flight := s.flights[goal.flight].(started := true)]) else s;
    var t := m.nextTicket;
    BeginFlights(m.(nextTicket := t + 1, busy := true, log := m.log + [t]), t, goal, token);
    hide Begin;
  }

  lemma BeginFlights(s: Client, t: nat, goal: Goal, token: nat)
    ensures Begin(s, t, goal, token).flights == s.flights
  {
    hide Release;
    ReleaseIs(s);
  }

  lemma QueuedCarries(s: Client, goal: Goal, token: nat, f: nat)
    requires s.nextTicket !in s.holders && s.nextTicket !in s.waiters
    requires Enabled(s, Acquire(goal, token)) && Current(s, token) && s.busy
    ensures var r := Step(s, Acquire(goal, token)); Carries(s, r, f) && (goal == ToConnect(f) ==> Carried(r, f))
  {
    QueuedIs(s, goal, token);
    hide Step;
    if goal == ToConnect(f) {
      assert Step(s, Acquire(goal, token)).waiters[s.nextTicket].goal == ToConnect(f);
    }
  }

  lemma TakenCarries(s: Client, goal: Goal, token: nat, f: nat)
    requires s.nextTicket !in s.holders
    requires Enabled(s, Acquire(goal, token)) && Current(s, token) && !s.busy
    ensures var r := Step(s, Acquire(goal, token)); Carries(s, r, f) && (goal == ToConnect(f) ==> Carried(r, f))
  {
    hide Begin, Carried;
    var m := if goal.ToConnect? && goal.flight in s.flights
             then s.(flights := s.flights[goal.flight := s.flights[goal.flight].(started := true)]) else s;
    var t := m.nextTicket;
    BeginCarries(m.(nextTicket := t + 1, busy := true, log := m.log + [t]), t, goal, token, f);
  }

  lemma AcquireCarries(s: Client, goal: Goal, token: nat, f: nat)
    requires s.nextTicket !in s.holders && s.nextTicket !in s.waiters
    requires Enabled(s, Acquire(goal, token)) && (UnderWay(s, f) ==> Carried(s, f))
    requires UnderWay(Step(s, Acquire(goal, token)), f)
    ensures Carried(Step(s, Acquire(goal, token)), f)
  {
    var r := Step(s, Acquire(goal, token));
    hide Step, Carried;
    if !Current(s, token) {
      RefusedIs(s, goal, token);
      assert Carries(s, r, f);
    } else if s.busy {
      QueuedCarries(s, goal, token, f);
    } else {
      TakenCarries(s, goal, token, f);
    }
    if goal != ToConnect(f) {
      OtherFlights(s, goal, token, f);
      StaysCarried(s, r, f);
    }
  }

  lemma RefuseIs(s: Client, goal: Goal, f: nat)
    ensures Refuse(s, goal) == s.(flights := Refuse(s, goal).flights)
    ensures UnderWay(Refuse(s, goal), f) ==> UnderWay(s, f) && goal != ToConnect(f)
  {
  }

  lemma WakeCarries(s: Client, t: nat, ok: bool, f: nat)
    requires t in s.waiters && t !in s.holders && (UnderWay(s, f) ==> Carried(s, f))
    requires UnderWay(Step(s, Wake(t, ok)), f)
    ensures Carried(Step(s, Wake(t, ok)), f)
  {
    var w, r := s.waiters[t], Step(s, Wake(t, ok));
    var m := s.(waiters := s.waiters - {t}, queue := Without(s.queue, t));
    hide Begin, Release, Without, Refuse, Carried;
    if w.granted && ok && Current(m, w.generation) {
      BeginCarries(m, t, w.goal, w.generation, f);
    } else {
      RefuseIs(m, w.goal, f);
      ReleaseIs(Refuse(m, w.goal));
    }
    if w.goal != ToConnect(f) {
      assert Carries(s, r, f);
      StaysCarried(s, r, f);
    }
  }

  lemma EndsCarry(s: Client, e: Event, f: nat)
    requires Enabled(s, e) && (e.ConnectEnds? || e.ExchangeEnds? || e.SessionEnds?)
    requires UnderWay(s, f) ==> Carried(s, f)
    requires UnderWay(Step(s, e), f)
    ensures Carried(Step(s, e), f)
  {
    hide Step;
    if e.ConnectEnds? {
      ConnectFrame(s, e.t, e.ok, e.http2);
    } else {
      EndFrame(s, e);
    }
    assert UnderWay(s, f) && s.holders[e.t].job != Connecting(f);
    assert Carries(s, Step(s, e), f);
    StaysCarried(s, Step(s, e), f);
  }

  lemma FlightsStep(s: Client, e: Event, f: nat)
    requires Inv(s) && Enabled(s, e) && (UnderWay(s, f) ==> Carried(s, f))
    ensures UnderWay(Step(s, e), f) ==> Carried(Step(s, e), f)
  {
    if UnderWay(Step(s, e), f) {
      assert s.nextTicket !in s.holders && s.nextTicket !in s.waiters;
      assert forall t :: t in s.waiters ==> t !in s.holders;
      hide Inv;
      match e {
        case Acquire(goal, token) => AcquireCarries(s, goal, token, f);
        case Wake(t, ok) => WakeCarries(s, t, ok, f);
        case StartFlight(x, token) =>
        case Close(terminal) =>
        case RunStop(stop) => StaysCarried(s, DoStop(s, stop), f);
        case _ => EndsCarry(s, e, f);
      }
    }
  }

  /** A flight that has started and is not over has a coroutine that will end it: no caller waits for nothing. */
  lemma {:induction false} NoFlightIsLost(events: seq<Event>, states: seq<Client>, i: nat, f: nat)
    requires IsRun(events, states) && i < |states|
    ensures f in states[i].flights && states[i].flights[f].started && !states[i].flights[f].completed ==>
      || (exists t :: t in states[i].holders && states[i].holders[t].job == Connecting(f))
      || (exists t :: t in states[i].waiters && states[i].waiters[t].goal == ToConnect(f))
  {
    hide Step, Enabled;
    if i > 0 {
      NoFlightIsLost(events, states, i - 1, f);
      RunInv(events, states, i - 1);
      FlightsStep(states[i - 1], events[i - 1], f);
    }
  }
}
