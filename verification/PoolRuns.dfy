/**
 The operations of the HTTP client pool's scheduler over whole runs: acquiring,
 draining, waking, re-queuing, sweeping and stopping, in any order.
 */
module PoolRuns {
  import opened Base
  import opened HttpTypes
  import opened PoolScheduler
  import H2 = Http2Session

  /**
   What one stretch of code sees: the clients' capacities, the clock when a deadline is refreshed, the clock when
   it is tested.
   */
  datatype Env = Env(caps: Caps, refreshAt: Clock, now: Clock)

  // ---------------------------------------------------------------- selecting

  predicate Lists(p: Pool, o: nat) {
    o in p.origins && forall c :: c in p.origins[o].connections ==> c in p.conns
  }

  function SetConnections(p: Pool, o: nat, list: seq<nat>): Pool
    requires o in p.origins
  {
    p.(origins := p.origins[o := p.origins[o].(connections := list)])
  }

  function AddConn(p: Pool, o: nat, list: seq<nat>): Pool
    requires o in p.origins
  {
    SetConnections(p, o, list + [p.nextConn]).(conns := p.conns[p.nextConn := Conn(o, 0, None)],
      nextConn := p.nextConn + 1)
  }

  datatype Selected = Selected(pool: Pool, conn: Option<nat>)

  function Select(p: Pool, o: nat, caps: Caps): (r: Selected)
    requires Lists(p, o)
    ensures r.conn.Some? ==> r.conn.value in r.pool.conns
  {
    var scan := ScanFrom(p.conns, p.origins[o].connections, caps);
    if scan.found.Some? || scan.starting || |scan.kept| >= p.origins[o].maxConnections then
      Selected(SetConnections(p, o, scan.kept), scan.found)
    else
      Selected(AddConn(p, o, scan.kept), Some(p.nextConn))
  }

  lemma {:induction false} ScanFacts(conns: map<nat, Conn>, list: seq<nat>, caps: Caps)
    requires NoDup(list) && forall c :: c in list ==> c in conns
    ensures var s := ScanFrom(conns, list, caps);
      && |s.kept| <= |list| && NoDup(s.kept)
      && (forall c :: c in s.kept ==> c in list)
      && (forall c :: c in list && conns[c].active != 0 ==> c in s.kept)
      && (s.found.Some? ==> s.found.value in s.kept && IsUsable(conns[s.found.value], CapOf(caps, s.found.value)))
  {
    if list != [] {
      hide IsUsable, IsStarting, CapOf;
      var rest := list[1..];
      assert list == [list[0]] + rest;
      ScanFacts(conns, rest, caps);
      assert list[0] !in rest;
      var s := ScanFrom(conns, rest, caps);
      assert forall c :: c in [list[0]] + s.kept ==> c == list[0] || c in s.kept;
    }
  }

  /** The lists of connections change: nothing in use is dropped, what is added is new and unused. */
  ghost predicate ListsMove(p: Pool, r: Pool) {
    && r.tickets == p.tickets && r.requests == p.requests && r.queuedRequests == p.queuedRequests
    && r.origins.Keys == p.origins.Keys && p.nextConn <= r.nextConn
    && (forall o :: o in p.origins ==> r.origins[o] == p.origins[o].(connections := r.origins[o].connections))
    && (forall c :: c in p.conns ==> c in r.conns && r.conns[c] == p.conns[c])
    && (forall c :: c in r.conns && c !in p.conns ==>
          p.nextConn <= c < r.nextConn && r.conns[c].active == 0 && r.conns[c].origin in p.origins)
  }

  ghost predicate ListOk(p: Pool, r: Pool, o: nat)
    requires o in p.origins && o in r.origins
  {
    var x := r.origins[o];
    && |x.connections| <= x.maxConnections && NoDup(x.connections)
    && (forall c :: c in x.connections ==> c in r.conns && r.conns[c].origin == o)
    && (forall c :: c in p.origins[o].connections && c in p.conns && p.conns[c].active > 0 ==> c in x.connections)
  }

  lemma {:induction false} TotalSame(m: map<nat, Origin>, n: map<nat, Origin>)
    requires m.Keys == n.Keys && forall o :: o in m ==> n[o].waiters == m[o].waiters
    ensures Total(m) == Total(n)
    decreases |m|
  {
    if m != map[] {
      var o :| o in m;
      TotalRemove(m, o);
      TotalRemove(n, o);
      TotalSame(m - {o}, n - {o});
    } else {
      assert n == map[];
    }
  }

  lemma ListsConns(p: Pool, r: Pool, c: nat)
    requires ListsMove(p, r) && c in r.conns && (c in p.conns ==> ConnOk(p, c))
    requires forall o :: o in p.origins ==> ListOk(p, r, o)
    requires forall t :: t in p.tickets ==> TicketOk(p, t)
    ensures ConnOk(r, c)
  {
    if c in p.conns {
      assert Users(r, c) == Users(p, c);
      assert ListOk(p, r, p.conns[c].origin);
    } else {
      assert Users(r, c) == {};
    }
  }

  lemma ListsOrigin(p: Pool, r: Pool, o: nat)
    requires ListsMove(p, r) && o in p.origins && OriginOk(p, o) && ListOk(p, r, o)
    ensures OriginOk(r, o)
  {
  }

  lemma ListsTicket(p: Pool, r: Pool, t: nat)
    requires ListsMove(p, r) && t in p.tickets && TicketOk(p, t) && DeadlinesOk(p, t)
    ensures TicketOk(r, t) && DeadlinesOk(r, t)
  {
  }

  lemma ListsInv(p: Pool, r: Pool)
    requires Inv(p) && ListsMove(p, r) && forall o :: o in p.origins ==> ListOk(p, r, o)
    ensures Inv(r)
  {
    hide ConnOk, OriginOk, DeadlinesOk, ListOk, Total;
    assert p.queuedRequests == Total(p.origins);
    TotalSame(p.origins, r.origins);
    forall o | o in r.origins ensures OriginOk(r, o) {
      ListsOrigin(p, r, o);
    }
    forall t | t in r.tickets ensures TicketOk(r, t) && DeadlinesOk(r, t) {
      TicketFacts(p, t);
      ListsTicket(p, r, t);
    }
    forall c | c in r.conns ensures ConnOk(r, c) {
      ListsConns(p, r, c);
    }
  }

  lemma TicketFacts(p: Pool, t: nat)
    requires Inv(p) && t in p.tickets
    ensures TicketOk(p, t) && p.tickets[t].request in p.requests && DeadlinesOk(p, t)
  {
  }

  lemma OriginFacts(p: Pool, o: nat)
    requires Inv(p) && o in p.origins
    ensures OriginOk(p, o) && Lists(p, o)
  {
  }

  lemma ConnFacts(p: Pool)
    requires Inv(p)
    ensures p.nextConn !in p.conns
  {
  }

  ghost predicate SelectKept(p: Pool, r: Selected, o: nat)
    requires o in p.origins
  {
    && ListsMove(p, r.pool) && r.pool.stopping == p.stopping && r.pool.managed == p.managed
    && r.pool.scheduled == p.scheduled
    && (forall x :: x in p.origins && x != o ==> r.pool.origins[x] == p.origins[x])
    && (r.conn.Some? ==> r.conn.value in r.pool.conns && r.pool.conns[r.conn.value].origin == o)
    && (r.conn.Some? ==> r.conn.value in r.pool.origins[o].connections)
  }

  /** A shorter list that drops nothing in use. */
  lemma KeepInv(p: Pool, o: nat, list: seq<nat>)
    requires Inv(p) && o in p.origins && NoDup(list) && |list| <= |p.origins[o].connections|
    requires forall c :: c in list ==> c in p.origins[o].connections
    requires forall c :: c in p.origins[o].connections && c in p.conns && p.conns[c].active > 0 ==> c in list
    ensures Inv(SetConnections(p, o, list)) && ListsMove(p, SetConnections(p, o, list))
  {
    hide Inv;
    var r := SetConnections(p, o, list);
    assert ListsMove(p, r);
    forall x | x in p.origins ensures ListOk(p, r, x) {
      OriginFacts(p, x);
    }
    hide ListsMove, ListOk, SetConnections;
    ListsInv(p, r);
  }

  lemma AddConnInv(p: Pool, o: nat)
    requires Inv(p) && o in p.origins && |p.origins[o].connections| < p.origins[o].maxConnections
    ensures Inv(AddConn(p, o, p.origins[o].connections)) && ListsMove(p, AddConn(p, o, p.origins[o].connections))
  {
    hide Inv;
    ConnFacts(p);
    var r := AddConn(p, o, p.origins[o].connections);
    assert ListsMove(p, r);
    forall x | x in p.origins ensures ListOk(p, r, x) {
      OriginFacts(p, x);
    }
    hide ListsMove, ListOk, AddConn;
    ListsInv(p, r);
  }

  lemma AddAfterKeep(p: Pool, o: nat, list: seq<nat>)
    requires o in p.origins
    ensures AddConn(SetConnections(p, o, list), o, list) == AddConn(p, o, list)
  {
  }

  lemma ListsMoveTwice(p: Pool, q: Pool, r: Pool)
    requires ListsMove(p, q) && ListsMove(q, r)
    ensures ListsMove(p, r)
  {
  }

  lemma SelectFrame(p: Pool, o: nat, caps: Caps)
    requires Lists(p, o)
    ensures var r := Select(p, o, caps).pool;
      && r.stopping == p.stopping && r.managed == p.managed && r.scheduled == p.scheduled
      && r.origins.Keys == p.origins.Keys && (forall x :: x in p.origins && x != o ==> r.origins[x] == p.origins[x])
  {
    hide ScanFrom;
  }

  lemma SelectFound(p: Pool, o: nat, caps: Caps)
    requires Inv(p) && o in p.origins && Lists(p, o)
    ensures var r := Select(p, o, caps);
      && (r.conn.Some? ==> r.pool.conns[r.conn.value].origin == o)
      && (r.conn.Some? ==> o in r.pool.origins && r.conn.value in r.pool.origins[o].connections)
  {
    hide Inv, ScanFrom, NoDup, CapOf, IsUsable;
    OriginFacts(p, o);
    ScanFacts(p.conns, p.origins[o].connections, caps);
  }

  lemma SelectInv(p: Pool, o: nat, caps: Caps)
    requires Inv(p) && o in p.origins
    ensures Lists(p, o) && Inv(Select(p, o, caps).pool) && SelectKept(p, Select(p, o, caps), o)
    ensures Lists(Select(p, o, caps).pool, o)
  {
    hide Inv, ScanFrom, NoDup, ListsMove;
    OriginFacts(p, o);
    ScanFacts(p.conns, p.origins[o].connections, caps);
    SelectFound(p, o, caps);
    SelectFrame(p, o, caps);
    var kept := ScanFrom(p.conns, p.origins[o].connections, caps).kept;
    KeepInv(p, o, kept);
    var q := SetConnections(p, o, kept);
    if Select(p, o, caps).pool.nextConn != p.nextConn {
      AddConnInv(q, o);
      AddAfterKeep(p, o, kept);
      ListsMoveTwice(p, q, AddConn(q, o, kept));
    }
    OriginFacts(Select(p, o, caps).pool, o);
  }

  /** The most users a connection may have once it is handed out again. */
  function Limit(cap: PoolCapacity): int {
    if cap.connected && cap.protocol == Http2 then Min(cap.session.localLimit, cap.session.peerLimit) else 1
  }

  /** Capacities as the sessions report them; a client that does not exist yet reports nothing. */
  predicate Honest(p: Pool, caps: Caps) {
    && (forall c :: c in caps ==> c < p.nextConn)
    && (forall c :: c in caps && caps[c].connected && caps[c].protocol == Http2 ==> H2.Offers(caps[c].session))
  }

  lemma SelectLimit(p: Pool, o: nat, caps: Caps)
    requires Inv(p) && o in p.origins && Lists(p, o) && Honest(p, caps)
    ensures var r := Select(p, o, caps);
      r.conn.Some? ==> r.pool.conns[r.conn.value].active + 1 <= Limit(CapOf(caps, r.conn.value))
  {
    hide Inv, ScanFrom;
    OriginFacts(p, o);
    ConnFacts(p);
    ScanFacts(p.conns, p.origins[o].connections, caps);
  }

  // ---------------------------------------------------------------- refreshing connect deadlines

  /** The first listed connection that is up and knows since when. */
  function FirstUp(conns: map<nat, Conn>, list: seq<nat>, caps: Caps): (r: Option<nat>)
    requires forall c :: c in list ==> c in conns
    ensures r.Some? ==> r.value in conns && conns[r.value].connectedAt.Some?
  {
    if list == [] then None
    else if CapOf(caps, list[0]).connected && conns[list[0]].connectedAt.Some? then Some(list[0])
    else FirstUp(conns, list[1..], caps)
  }

  function Refreshed(p: Pool, k: Ticket, caps: Caps, now: Time): Ticket
    requires Lists(p, k.origin)
  {
    var up := FirstUp(p.conns, p.origins[k.origin].connections, caps);
    if up.Some? then
      if k.connectDeadline == NEVER then k
      else if p.conns[up.value].connectedAt.value > k.connectDeadline then k.(error := Some(TimedOut))
      else k.(connectDeadline := NEVER, expiry := k.queueDeadline)
    else if k.connectDeadline == NEVER && k.connectTimeout > 0 then
      var d := DeadlineAfter(now, k.connectTimeout);
      k.(connectDeadline := d, expiry := Min(k.queueDeadline, d))
    else k
  }

  function Refresh(p: Pool, t: nat, e: Env): Pool
    requires t in p.tickets && Lists(p, p.tickets[t].origin)
  {
    SetTicket(p, t, Refreshed(p, p.tickets[t], e.caps, e.refreshAt(t)))
  }

  /** The tickets of `list` belong to origin `o`, whose lists are sound. */
  ghost predicate Ready(p: Pool, o: nat, list: seq<nat>) {
    Lists(p, o) && forall t :: t in list ==> t in p.tickets && p.tickets[t].origin == o
  }

  function RefreshAll(p: Pool, o: nat, list: seq<nat>, e: Env): Pool
    requires Ready(p, o, list)
    decreases |list|
  {
    if list == [] then p else RefreshAll(Refresh(p, list[0], e), o, list[1..], e)
  }

  lemma RefreshInv(p: Pool, t: nat, e: Env)
    requires Inv(p) && t in p.tickets
    ensures Known(p, t) && Lists(p, p.tickets[t].origin) && Inv(Refresh(p, t, e))
  {
    hide Inv, FirstUp;
    Facts(p, t);
    OriginFacts(p, p.tickets[t].origin);
    var k := Refreshed(p, p.tickets[t], e.caps, e.refreshAt(t));
    assert DeadlinesOk(SetTicket(p, t, k), t);
    SetTicketInv(p, t, k);
  }

  /** Refreshing moves nobody. */
  ghost predicate OnlyTimes(p: Pool, r: Pool) {
    && r == p.(tickets := r.tickets) && r.tickets.Keys == p.tickets.Keys
    && forall t :: t in p.tickets ==>
         var k, q := p.tickets[t], r.tickets[t];
         q == k.(connectDeadline := q.connectDeadline, expiry := q.expiry, error := q.error)
  }

  lemma {:induction false} RefreshAllInv(p: Pool, o: nat, list: seq<nat>, e: Env)
    requires Inv(p) && Ready(p, o, list)
    ensures Inv(RefreshAll(p, o, list, e)) && OnlyTimes(p, RefreshAll(p, o, list, e))
    decreases |list|
  {
    hide Inv;
    if list != [] {
      RefreshInv(p, list[0], e);
      var q := Refresh(p, list[0], e);
      assert OnlyTimes(p, q) by {
        hide FirstUp;
      }
      hide Refresh;
      RefreshAllInv(q, o, list[1..], e);
    }
  }

  // ---------------------------------------------------------------- draining the queue

  function Reject(p: Pool, t: nat, error: ErrorCode): Pool
    requires Known(p, t)
  {
    Unqueue(SetTicket(p, t, p.tickets[t].(error := Some(error))), t)
  }

  datatype Round = Round(pool: Pool, more: bool)

  /** One round of the loop: the front waiter fails, is granted a connection, or ends the loop. */
  function DrainOne(p: Pool, o: nat, t: nat, e: Env): Round
    requires Lists(p, o) && Known(p, t)
  {
    var k := p.tickets[t];
    if p.stopping then Round(Reject(p, t, OperationAborted), true)
    else if k.error.Some? then Round(Unqueue(p, t), true)
    else if e.now(t) >= k.expiry then Round(Reject(p, t, TimedOut), true)
    else
      var s := Select(p, o, e.caps);
      if s.conn.None? then Round(s.pool, false)
      else Round(Give(Unqueue(s.pool, t), t, Granted(s.conn.value), CapOf(e.caps, s.conn.value).connected), true)
  }

  /** What one round may change: the lists of `o`, and ticket `t`. */
  ghost predicate RoundKept(p: Pool, r: Round, o: nat, t: nat)
    requires o in p.origins && t in p.tickets
  {
    var q := r.pool;
    && Lists(q, o) && q.origins.Keys == p.origins.Keys && q.tickets.Keys == p.tickets.Keys
    && q.requests == p.requests && q.stopping == p.stopping && q.managed == p.managed && q.scheduled == p.scheduled
    && p.nextConn <= q.nextConn
    && (forall x :: x in p.tickets && (x != t || !r.more) ==> q.tickets[x] == p.tickets[x])
    && q.tickets[t].origin == p.tickets[t].origin && q.tickets[t].request == p.tickets[t].request
    && (forall x :: x in p.origins && x != o ==> q.origins[x] == p.origins[x])
    && q.origins[o] == p.origins[o].(connections := q.origins[o].connections, waiters := q.origins[o].waiters)
    && (forall c :: c in p.conns ==> c in q.conns && q.conns[c].connectedAt == p.conns[c].connectedAt)
    && q.origins[o].waiters == (if r.more then Without(p.origins[o].waiters, t) else p.origins[o].waiters)
  }

  lemma RoundSelect(p: Pool, o: nat, t: nat, e: Env)
    requires Inv(p) && t in p.tickets && p.tickets[t].origin == o && p.tickets[t].status == Queued
    requires o in p.origins && Lists(p, o)
    requires !p.stopping && p.tickets[t].error.None? && e.now(t) < p.tickets[t].expiry
    ensures Inv(DrainOne(p, o, t, e).pool)
  {
    hide Inv, Select, Unqueue, CapOf;
    SelectInv(p, o, e.caps);
    var s := Select(p, o, e.caps);
    if s.conn.Some? {
      UnqueueInv(s.pool, t);
      UnqueueShape(s.pool, t);
      TicketFacts(s.pool, t);
      GiveInv(Unqueue(s.pool, t), t, Granted(s.conn.value), CapOf(e.caps, s.conn.value).connected);
    }
  }

  lemma UnqueueShape(p: Pool, t: nat)
    requires Known(p, t) && p.tickets[t].status == Queued
    ensures var r, o := Unqueue(p, t), p.tickets[t].origin;
      && r == p.(tickets := r.tickets, origins := r.origins, queuedRequests := r.queuedRequests)
      && r.tickets == p.tickets[t := p.tickets[t].(status := Loose)]
      && r.origins == p.origins[o := p.origins[o].(waiters := Without(p.origins[o].waiters, t))]
  {
  }

  lemma RejectInv(p: Pool, t: nat, error: ErrorCode)
    requires Inv(p) && t in p.tickets
    ensures Known(p, t) && Inv(Reject(p, t, error))
  {
    hide Inv, Unqueue;
    TicketFacts(p, t);
    var k := p.tickets[t].(error := Some(error));
    SetTicketInv(p, t, k);
    UnqueueInv(SetTicket(p, t, k), t);
  }

  lemma RoundInv(p: Pool, o: nat, t: nat, e: Env)
    requires Inv(p) && t in p.tickets && p.tickets[t].origin == o && p.tickets[t].status == Queued
    ensures Known(p, t) && Lists(p, o) && Inv(DrainOne(p, o, t, e).pool)
  {
    hide Inv, Select, Unqueue, Reject, Give;
    TicketFacts(p, t);
    OriginFacts(p, o);
    if !p.stopping && p.tickets[t].error.None? && e.now(t) < p.tickets[t].expiry {
      RoundSelect(p, o, t, e);
    } else {
      UnqueueInv(p, t);
      RejectInv(p, t, TimedOut);
      RejectInv(p, t, OperationAborted);
    }
  }

  lemma OutShape(p: Pool, t: nat, k: Ticket)
    requires Known(p, t) && p.tickets[t].status == Queued && Lists(p, p.tickets[t].origin)
    requires k == p.tickets[t].(error := k.error)
    ensures RoundKept(p, Round(Unqueue(SetTicket(p, t, k), t), true), k.origin, t)
  {
    hide Without;
  }

  lemma GrantShape(p: Pool, s: Selected, t: nat, connected: bool)
    requires Known(p, t) && p.tickets[t].status == Queued && s.conn.Some?
    requires SelectKept(p, s, p.tickets[t].origin) && Lists(s.pool, p.tickets[t].origin)
    ensures RoundKept(p, Round(Give(Unqueue(s.pool, t), t, Granted(s.conn.value), connected), true),
      p.tickets[t].origin, t)
  {
    hide Unqueue;
    UnqueueShape(s.pool, t);
    hide Without;
  }

  lemma StopShape(p: Pool, s: Selected, t: nat)
    requires Known(p, t) && SelectKept(p, s, p.tickets[t].origin) && Lists(s.pool, p.tickets[t].origin)
    ensures RoundKept(p, Round(s.pool, false), p.tickets[t].origin, t)
  {
    hide Without;
  }

  lemma RoundShape(p: Pool, o: nat, t: nat, e: Env)
    requires Inv(p) && Lists(p, o) && Known(p, t) && p.tickets[t].origin == o && p.tickets[t].status == Queued
    ensures RoundKept(p, DrainOne(p, o, t, e), o, t)
  {
    hide Inv, Select, Unqueue, CapOf, RoundKept, SelectKept;
    SelectInv(p, o, e.caps);
    var s := Select(p, o, e.caps);
    var k := p.tickets[t];
    OutShape(p, t, k);
    assert SetTicket(p, t, k) == p by {
      assert p.tickets[t := k] == p.tickets;
    }
    OutShape(p, t, k.(error := Some(OperationAborted)));
    OutShape(p, t, k.(error := Some(TimedOut)));
    if s.conn.Some? {
      GrantShape(p, s, t, CapOf(e.caps, s.conn.value).connected);
    } else {
      StopShape(p, s, t);
    }
  }

  lemma FrontOut(q: seq<nat>)
    requires q != [] && NoDup(q)
    ensures Without(q, q[0]) == q[1..]
  {
    assert q[0] !in q[1..];
    WithoutNone(q[1..], q[0]);
  }

  datatype Drained = Drained(pool: Pool, served: nat)

  /** The drain loop on the queue `list`; `served` counts the waiters taken from its front. */
  function DrainFrom(p: Pool, o: nat, list: seq<nat>, e: Env): (r: Drained)
    requires Inv(p) && o in p.origins && p.origins[o].waiters == list
    ensures r.served <= |list|
    decreases |list|
  {
    if list == [] then Drained(p, 0)
    else
      RoundReady(p, o, list, e);
      var round := DrainOne(p, o, list[0], e);
      if !round.more then Drained(round.pool, 0)
      else
        var rest := DrainFrom(round.pool, o, list[1..], e);
        Drained(rest.pool, rest.served + 1)
  }

  lemma RoundReady(p: Pool, o: nat, list: seq<nat>, e: Env)
    requires Inv(p) && o in p.origins && p.origins[o].waiters == list && list != []
    ensures Lists(p, o) && Known(p, list[0]) && p.tickets[list[0]].origin == o && p.tickets[list[0]].status == Queued
    ensures var r := DrainOne(p, o, list[0], e);
      && Inv(r.pool) && RoundKept(p, r, o, list[0]) && o in r.pool.origins
      && (r.more ==> r.pool.origins[o].waiters == list[1..])
  {
    hide Inv, DrainOne, Without;
    OriginFacts(p, o);
    RoundInv(p, o, list[0], e);
    RoundShape(p, o, list[0], e);
    FrontOut(list);
  }

  function Drain(p: Pool, o: nat, e: Env): Drained
    requires Inv(p) && o in p.origins
  {
    DrainReady(p, o, e);
    DrainFrom(RefreshAll(p, o, p.origins[o].waiters, e), o, p.origins[o].waiters, e)
  }

  lemma DrainReady(p: Pool, o: nat, e: Env)
    requires Inv(p) && o in p.origins
    ensures var list := p.origins[o].waiters;
      Ready(p, o, list) && Inv(RefreshAll(p, o, list, e)) && OnlyTimes(p, RefreshAll(p, o, list, e))
  {
    hide Inv, RefreshAll;
    OriginFacts(p, o);
    RefreshAllInv(p, o, p.origins[o].waiters, e);
  }

  /** A drain serves a prefix of the queue, in order, and touches no other queue and no other ticket's place. */
  ghost predicate Serves(p: Pool, d: Drained, o: nat, list: seq<nat>) {
    var q := d.pool;
    && q.origins.Keys == p.origins.Keys && q.tickets.Keys == p.tickets.Keys && o in p.origins
    && q.requests == p.requests && q.stopping == p.stopping && q.managed == p.managed && q.scheduled == p.scheduled
    && p.nextConn <= q.nextConn
    && d.served <= |list| && q.origins[o].waiters == list[d.served..]
    && (forall t :: t in p.tickets ==>
          q.tickets[t].origin == p.tickets[t].origin && q.tickets[t].request == p.tickets[t].request)
    && (forall t :: t in p.tickets && t !in list[..d.served] ==> q.tickets[t].status == p.tickets[t].status)
    && (forall x :: x in p.origins && x != o ==> q.origins[x] == p.origins[x])
    && q.origins[o] == p.origins[o].(connections := q.origins[o].connections, waiters := q.origins[o].waiters)
  }

  lemma ServesStep(p: Pool, r: Round, d: Drained, o: nat, list: seq<nat>)
    requires list != [] && list[0] in p.tickets && o in p.origins && r.more && RoundKept(p, r, o, list[0])
    requires Serves(r.pool, d, o, list[1..])
    ensures Serves(p, Drained(d.pool, d.served + 1), o, list)
  {
    assert list[..d.served + 1] == [list[0]] + list[1..][..d.served];
    assert list[1..][d.served..] == list[d.served + 1..];
  }

  lemma {:induction false} DrainFromServes(p: Pool, o: nat, list: seq<nat>, e: Env)
    requires Inv(p) && o in p.origins && p.origins[o].waiters == list
    ensures Inv(DrainFrom(p, o, list, e).pool) && Serves(p, DrainFrom(p, o, list, e), o, list)
    decreases |list|
  {
    hide Inv, DrainOne, Serves;
    if list == [] {
      ServesEmpty(p, o);
    } else {
      RoundReady(p, o, list, e);
      var round := DrainOne(p, o, list[0], e);
      if round.more {
        DrainFromServes(round.pool, o, list[1..], e);
        ServesStep(p, round, DrainFrom(round.pool, o, list[1..], e), o, list);
      } else {
        ServesNone(p, round, o, list);
      }
    }
  }

  lemma ServesEmpty(p: Pool, o: nat)
    requires o in p.origins && p.origins[o].waiters == []
    ensures Serves(p, Drained(p, 0), o, [])
  {
  }

  lemma ServesNone(p: Pool, r: Round, o: nat, list: seq<nat>)
    requires list != [] && list[0] in p.tickets && o in p.origins && !r.more && RoundKept(p, r, o, list[0])
    requires p.origins[o].waiters == list
    ensures Serves(p, Drained(r.pool, 0), o, list)
  {
  }

  lemma DrainServes(p: Pool, o: nat, e: Env)
    requires Inv(p) && o in p.origins
    ensures Inv(Drain(p, o, e).pool) && Serves(p, Drain(p, o, e), o, p.origins[o].waiters)
  {
    hide Inv, DrainFrom, RefreshAll;
    DrainReady(p, o, e);
    var list := p.origins[o].waiters;
    DrainFromServes(RefreshAll(p, o, list, e), o, list, e);
  }

  lemma RefreshedAlready(p: Pool, o: nat, list: seq<nat>, i: nat, e: Env)
    requires i < |list| && Ready(p, o, list[i..])
    ensures Ready(Refresh(p, list[i], e), o, list[i + 1..])
    ensures RefreshAll(p, o, list[i..], e) == RefreshAll(Refresh(p, list[i], e), o, list[i + 1..], e)
  {
    hide FirstUp;
    assert list[i] in list[i..] && list[i..][1..] == list[i + 1..];
    assert Ready(Refresh(p, list[i], e), o, list[i..]);
  }

  lemma RefreshNone(p: Pool, o: nat, list: seq<nat>, e: Env)
    requires list == [] && Ready(p, o, list)
    ensures RefreshAll(p, o, list, e) == p
  {
  }

  lemma DrainUnfold(p: Pool, o: nat, list: seq<nat>, e: Env)
    requires Inv(p) && o in p.origins && p.origins[o].waiters == list && list != []
    requires Lists(p, o) && Known(p, list[0]) && var r := DrainOne(p, o, list[0], e);
      Inv(r.pool) && o in r.pool.origins && (r.more ==> r.pool.origins[o].waiters == list[1..])
    ensures o in p.origins && var r := DrainOne(p, o, list[0], e);
      DrainFrom(p, o, list, e) ==
      if !r.more then Drained(r.pool, 0)
      else var rest := DrainFrom(r.pool, o, list[1..], e); Drained(rest.pool, rest.served + 1)
  {
    hide Inv, DrainOne;
  }

  lemma DrainNone(p: Pool, o: nat, e: Env)
    requires Inv(p) && o in p.origins && p.origins[o].waiters == []
    ensures DrainFrom(p, o, [], e) == Drained(p, 0)
  {
  }

  // ---------------------------------------------------------------- grants stay within the limits

  function ActiveOf(p: Pool, c: nat): int {
    if c in p.conns then p.conns[c].active else 0
  }

  ghost predicate Grows(p: Pool, q: Pool, caps: Caps, c: nat) {
    ActiveOf(q, c) <= ActiveOf(p, c) || ActiveOf(q, c) <= Limit(CapOf(caps, c))
  }

  lemma RoundGrows(p: Pool, o: nat, t: nat, e: Env, c: nat)
    requires Inv(p) && t in p.tickets && p.tickets[t].origin == o && p.tickets[t].status == Queued && Honest(p, e.caps)
    ensures Known(p, t) && Lists(p, o) && Grows(p, DrainOne(p, o, t, e).pool, e.caps, c)
  {
    hide Inv, Select, Unqueue, Limit, CapOf;
    TicketFacts(p, t);
    SelectInv(p, o, e.caps);
    SelectLimit(p, o, e.caps);
    var s := Select(p, o, e.caps);
    UnqueueShape(s.pool, t);
    UnqueueShape(p, t);
    UnqueueShape(SetTicket(p, t, p.tickets[t].(error := Some(OperationAborted))), t);
    UnqueueShape(SetTicket(p, t, p.tickets[t].(error := Some(TimedOut))), t);
    hide Without;
  }

  lemma {:induction false} DrainGrows(p: Pool, o: nat, list: seq<nat>, e: Env, c: nat)
    requires Inv(p) && o in p.origins && p.origins[o].waiters == list && Honest(p, e.caps)
    ensures Grows(p, DrainFrom(p, o, list, e).pool, e.caps, c)
    decreases |list|
  {
    hide Inv, DrainOne, Limit, CapOf;
    if list != [] {
      RoundReady(p, o, list, e);
      RoundGrows(p, o, list[0], e, c);
      var round := DrainOne(p, o, list[0], e);
      if round.more {
        DrainGrows(round.pool, o, list[1..], e, c);
      }
    }
  }

  // ---------------------------------------------------------------- acquiring

  function LeaseDirect(p: Pool, t: nat, r: nat, o: nat, c: nat, connectTimeout: Time, connected: bool): Pool
    requires r in p.requests && c in p.conns
  {
    var d := p.requests[r].deadline;
    Give(SetTicket(p, t, Ticket(o, r, Loose, d, NEVER, d, connectTimeout, None, false)), t, Leased(c), connected)
  }

  /** The queue budget starts when a request is queued for the first time, and only then. */
  function FixDeadline(p: Pool, r: nat, now: Time, timeout: Time): Pool
    requires r in p.requests
  {
    if p.requests[r].queueDeadline.Some? then p
    else p.(requests := p.requests[r := p.requests[r].(queueDeadline := Some(DeadlineAfter(now, timeout)))])
  }

  function NewWaiter(p: Pool, r: nat, o: nat, connectTimeout: Time, caps: Caps, now: Time): Ticket
    requires r in p.requests && p.requests[r].queueDeadline.Some? && o in p.origins
  {
    var limit := Min(p.requests[r].deadline, p.requests[r].queueDeadline.value);
    var connected := exists c :: c in p.origins[o].connections && CapOf(caps, c).connected;
    if !connected && connectTimeout > 0 then
      var d := DeadlineAfter(now, connectTimeout);
      Ticket(o, r, Loose, limit, d, Min(limit, d), connectTimeout, None, false)
    else
      Ticket(o, r, Loose, limit, NEVER, limit, connectTimeout, None, false)
  }

  function Enqueue(p: Pool, t: nat, r: nat, o: nat, connectTimeout: Time, e: Env): Pool
    requires o in p.origins && r in p.requests
  {
    var q := FixDeadline(p, r, e.now(t), p.origins[o].queueTimeout);
    Push(SetTicket(q, t, NewWaiter(q, r, o, connectTimeout, e.caps, e.refreshAt(t))), t)
  }

  /** A newcomer: a direct lease only past an empty queue, otherwise a place at the end of it or a refusal. */
  function Admit(p: Pool, t: nat, r: nat, o: nat, connectTimeout: Time, e: Env): Pool
    requires Lists(p, o) && r in p.requests
  {
    var s := if p.origins[o].waiters == [] then Select(p, o, e.caps) else Selected(p, None);
    if s.conn.Some? then
      LeaseDirect(s.pool, t, r, o, s.conn.value, connectTimeout, CapOf(e.caps, s.conn.value).connected)
    else if |s.pool.origins[o].waiters| >= s.pool.origins[o].maxQueued then s.pool
    else Enqueue(s.pool, t, r, o, connectTimeout, e)
  }

  function Acquired(p: Pool, t: nat, r: nat, o: nat, connectTimeout: Time, e: Env): Pool
    requires Inv(p) && o in p.origins && r in p.requests
  {
    if p.stopping || e.now(t) >= p.requests[r].deadline then p
    else
      DrainReadyFor(p, o, e);
      Admit(Drain(p, o, e).pool, t, r, o, connectTimeout, e)
  }

  lemma DrainReadyFor(p: Pool, o: nat, e: Env)
    requires Inv(p) && o in p.origins
    ensures var q := Drain(p, o, e).pool;
      Inv(q) && Lists(q, o) && q.requests == p.requests && q.tickets.Keys == p.tickets.Keys
  {
    hide Inv, Drain;
    DrainServes(p, o, e);
    OriginFacts(Drain(p, o, e).pool, o);
  }

  lemma LeaseDirectInv(p: Pool, t: nat, r: nat, o: nat, c: nat, connectTimeout: Time, connected: bool)
    requires Inv(p) && t !in p.tickets && r in p.requests && o in p.origins
    requires c in p.conns && p.conns[c].origin == o && c in p.origins[o].connections
    ensures Inv(LeaseDirect(p, t, r, o, c, connectTimeout, connected))
  {
    hide Inv;
    var d := p.requests[r].deadline;
    var k := Ticket(o, r, Loose, d, NEVER, d, connectTimeout, None, false);
    NewTicketInv(p, t, k);
    GiveInv(SetTicket(p, t, k), t, Leased(c), connected);
  }

  /** A change that touches no place, no list and no count. */
  ghost predicate PlainMove(p: Pool, q: Pool) {
    && q == p.(requests := q.requests, conns := q.conns, stopping := q.stopping, scheduled := q.scheduled)
    && q.conns.Keys == p.conns.Keys
    && (forall c :: c in p.conns ==> q.conns[c] == p.conns[c].(connectedAt := q.conns[c].connectedAt))
    && (forall r :: r in p.requests ==> r in q.requests && q.requests[r].deadline == p.requests[r].deadline)
    && (forall r :: r in p.requests && p.requests[r].queueDeadline.Some? ==>
          r in q.requests && q.requests[r] == p.requests[r])
    && (forall r :: r in q.requests && q.requests[r].queueDeadline.Some? ==>
          (r in p.requests && q.requests[r] == p.requests[r]) || q.requests[r].queueDeadline.value <= NEVER)
  }

  lemma BudgetFacts(p: Pool, r: nat)
    requires Inv(p) && r in p.requests && p.requests[r].queueDeadline.Some?
    ensures p.requests[r].queueDeadline.value <= NEVER
  {
  }

  lemma PlainOrigin(p: Pool, q: Pool, o: nat)
    requires PlainMove(p, q) && o in p.origins && OriginOk(p, o)
    ensures OriginOk(q, o)
  {
  }

  lemma PlainConn(p: Pool, q: Pool, c: nat)
    requires PlainMove(p, q) && c in p.conns && ConnOk(p, c)
    ensures ConnOk(q, c)
  {
    assert Users(q, c) == Users(p, c);
  }

  lemma PlainTicket(p: Pool, q: Pool, t: nat)
    requires PlainMove(p, q) && t in p.tickets && TicketOk(p, t) && DeadlinesOk(p, t)
    ensures TicketOk(q, t) && DeadlinesOk(q, t)
  {
  }

  lemma PlainInv(p: Pool, q: Pool)
    requires Inv(p) && PlainMove(p, q)
    ensures Inv(q)
  {
    hide Total, OriginOk, ConnOk, DeadlinesOk;
    forall o | o in q.origins ensures OriginOk(q, o) {
      PlainOrigin(p, q, o);
    }
    forall c | c in q.conns ensures ConnOk(q, c) {
      PlainConn(p, q, c);
    }
    forall t | t in q.tickets ensures TicketOk(q, t) && DeadlinesOk(q, t) {
      TicketFacts(p, t);
      PlainTicket(p, q, t);
    }
  }

  lemma NewWaiterTimes(p: Pool, r: nat, o: nat, connectTimeout: Time, caps: Caps, now: Time)
    requires r in p.requests && p.requests[r].queueDeadline.Some? && p.requests[r].queueDeadline.value <= NEVER
    requires o in p.origins
    ensures var k := NewWaiter(p, r, o, connectTimeout, caps, now);
      && k.origin == o && k.request == r && k.status == Loose && k.error.None?
      && k.queueDeadline == Min(p.requests[r].deadline, p.requests[r].queueDeadline.value) <= NEVER
      && k.expiry == Min(k.queueDeadline, k.connectDeadline)
  {
    hide CapOf, DeadlineAfter;
  }

  lemma EnqueueInv(p: Pool, t: nat, r: nat, o: nat, connectTimeout: Time, e: Env)
    requires Inv(p) && t !in p.tickets && r in p.requests && o in p.origins
    requires |p.origins[o].waiters| < p.origins[o].maxQueued
    ensures Inv(Enqueue(p, t, r, o, connectTimeout, e))
  {
    hide Inv, DeadlineAfter, CapOf;
    var q := FixDeadline(p, r, e.now(t), p.origins[o].queueTimeout);
    PlainInv(p, q);
    BudgetFacts(q, r);
    var k := NewWaiter(q, r, o, connectTimeout, e.caps, e.refreshAt(t));
    NewWaiterTimes(q, r, o, connectTimeout, e.caps, e.refreshAt(t));
    hide FixDeadline, NewWaiter;
    NewTicketInv(q, t, k);
    PushInv(SetTicket(q, t, k), t);
  }

  lemma AdmitInv(p: Pool, t: nat, r: nat, o: nat, connectTimeout: Time, e: Env)
    requires Inv(p) && Lists(p, o) && t !in p.tickets && r in p.requests
    ensures Inv(Admit(p, t, r, o, connectTimeout, e))
  {
    hide Inv, Select, LeaseDirect, Enqueue, CapOf;
    SelectInv(p, o, e.caps);
    var s := if p.origins[o].waiters == [] then Select(p, o, e.caps) else Selected(p, None);
    if s.conn.Some? {
      LeaseDirectInv(s.pool, t, r, o, s.conn.value, connectTimeout, CapOf(e.caps, s.conn.value).connected);
    } else if |s.pool.origins[o].waiters| < s.pool.origins[o].maxQueued {
      EnqueueInv(s.pool, t, r, o, connectTimeout, e);
    }
  }

  // ---------------------------------------------------------------- waking up, re-queuing, leaving

  /** Everything a waiter or a lease gives back when its owner goes: its place in the queue and its connection. */
  function Leave(p: Pool, t: nat): Pool
    requires Known(p, t) && (InUse(p.tickets[t]) ==> p.tickets[t].status.conn in p.conns)
  {
    Post(Forget(if InUse(p.tickets[t]) then TakeBack(p, t) else Unqueue(p, t), t), p.tickets[t].origin)
  }

  /** A reservation on a connection that has since gone down goes back to the end of the queue. */
  function Requeue(p: Pool, t: nat, now: Time): Pool
    requires Known(p, t) && InUse(p.tickets[t]) && p.tickets[t].status.conn in p.conns
  {
    var q, k := TakeBack(p, t), p.tickets[t];
    if |q.origins[k.origin].waiters| >= q.origins[k.origin].maxQueued then Forget(q, t)
    else
      var d := if k.connectDeadline == NEVER then DeadlineAfter(now, k.connectTimeout) else k.connectDeadline;
      Push(SetTicket(q, t, q.tickets[t].(connectDeadline := d, expiry := Min(k.queueDeadline, d))), t)
  }

  /**
   The waiter's timer fires or is cancelled; `late` says that the deadline passes between its two readings of the
   clock.
   */
  function Woken(p: Pool, t: nat, cancelled: bool, aborted: bool, late: bool, e: Env): Pool
    requires Known(p, t) && Lists(p, p.tickets[t].origin)
    requires InUse(p.tickets[t]) ==> p.tickets[t].status.conn in p.conns
  {
    var q := Refresh(p, t, e);
    var k := q.tickets[t];
    if q.stopping || cancelled || k.error.Some? || e.now(t) >= k.expiry then Leave(q, t)
    else if k.status.Granted? then
      if k.assignedConnected && !CapOf(e.caps, k.status.conn).connected then Requeue(q, t, e.now(t))
      else if late then Leave(q, t)
      else Claim(q, t)
    else if !aborted then Leave(q, t)
    else q
  }

  lemma LeaveInv(p: Pool, t: nat)
    requires Inv(p) && t in p.tickets
    ensures Known(p, t) && (InUse(p.tickets[t]) ==> p.tickets[t].status.conn in p.conns) && Inv(Leave(p, t))
  {
    hide Inv, Unqueue, Forget;
    Facts(p, t);
    if InUse(p.tickets[t]) {
      TakeBackInv(p, t);
      ForgetInv(TakeBack(p, t), t);
      PostInv(Forget(TakeBack(p, t), t), p.tickets[t].origin);
    } else {
      UnqueueInv(p, t);
      UnqueuedIsLoose(p, t);
      ForgetInv(Unqueue(p, t), t);
      PostInv(Forget(Unqueue(p, t), t), p.tickets[t].origin);
    }
  }

  lemma PostInv(p: Pool, o: nat)
    requires Inv(p)
    ensures Inv(Post(p, o))
  {
    hide Inv;
    PlainInv(p, Post(p, o));
  }

  lemma UnqueuedIsLoose(p: Pool, t: nat)
    requires Known(p, t) && !InUse(p.tickets[t])
    ensures t in Unqueue(p, t).tickets && Unqueue(p, t).tickets[t].status == Loose
  {
  }

  lemma RequeueInv(p: Pool, t: nat, now: Time)
    requires Inv(p) && t in p.tickets && p.tickets[t].status.Granted?
    ensures Known(p, t) && p.tickets[t].status.conn in p.conns && Inv(Requeue(p, t, now))
  {
    hide Inv, DeadlineAfter;
    Facts(p, t);
    TakeBackInv(p, t);
    var q, k := TakeBack(p, t), p.tickets[t];
    if |q.origins[k.origin].waiters| >= q.origins[k.origin].maxQueued {
      ForgetInv(q, t);
    } else {
      var d := if k.connectDeadline == NEVER then DeadlineAfter(now, k.connectTimeout) else k.connectDeadline;
      var k1 := q.tickets[t].(connectDeadline := d, expiry := Min(k.queueDeadline, d));
      RequeuePush(q, t, k1);
    }
  }

  lemma RequeuePush(q: Pool, t: nat, k: Ticket)
    requires Inv(q) && Known(q, t) && q.tickets[t].status == Loose
    requires k == q.tickets[t].(connectDeadline := k.connectDeadline, expiry := k.expiry)
    requires |q.origins[k.origin].waiters| < q.origins[k.origin].maxQueued && k.request in q.requests
    requires k.expiry == Min(k.queueDeadline, k.connectDeadline) && k.queueDeadline <= NEVER
    requires q.requests[k.request].queueDeadline.Some?
    requires k.queueDeadline == Min(q.requests[k.request].deadline, q.requests[k.request].queueDeadline.value)
    ensures Inv(Push(SetTicket(q, t, k), t))
  {
    hide Inv;
    SetTicketInv(q, t, k);
    PushInv(SetTicket(q, t, k), t);
  }

  lemma WokenInv(p: Pool, t: nat, cancelled: bool, aborted: bool, late: bool, e: Env)
    requires Inv(p) && t in p.tickets && !p.tickets[t].status.Leased?
    ensures Known(p, t) && Lists(p, p.tickets[t].origin)
    ensures (InUse(p.tickets[t]) ==> p.tickets[t].status.conn in p.conns)
    ensures Inv(Woken(p, t, cancelled, aborted, late, e))
  {
    hide Inv, Refresh, Leave, Requeue, CapOf;
    Facts(p, t);
    RefreshInv(p, t, e);
    RefreshShape(p, t, e);
    var q := Refresh(p, t, e);
    LeaveInv(q, t);
    if q.tickets[t].status.Granted? {
      RequeueInv(q, t, e.now(t));
      TicketFacts(q, t);
      SetTicketInv(q, t, q.tickets[t].(status := Leased(q.tickets[t].status.conn)));
    }
  }

  lemma RefreshShape(p: Pool, t: nat, e: Env)
    requires t in p.tickets && Lists(p, p.tickets[t].origin)
    ensures OnlyTimes(p, Refresh(p, t, e))
    ensures var k, q := p.tickets[t], Refresh(p, t, e).tickets[t];
      q == k.(connectDeadline := q.connectDeadline, expiry := q.expiry, error := q.error)
    ensures forall u :: u in p.tickets && u != t ==> Refresh(p, t, e).tickets[u] == p.tickets[u]
  {
    hide FirstUp;
  }

  // ---------------------------------------------------------------- sweeping

  function Kept(conns: map<nat, Conn>, list: seq<nat>, idle: set<nat>): seq<nat>
    requires forall c :: c in list ==> c in conns
  {
    if list == [] then []
    else (if conns[list[0]].active != 0 || list[0] !in idle then [list[0]] else []) + Kept(conns, list[1..], idle)
  }

  ghost predicate AllLists(p: Pool) {
    forall o :: o in p.origins ==> Lists(p, o)
  }

  function SweptOrigin(p: Pool, o: nat, idle: set<nat>): Origin
    requires Lists(p, o)
  {
    var x := p.origins[o];
    if o !in p.managed || x.waiters != [] then x else x.(connections := Kept(p.conns, x.connections, idle))
  }

  /**
   Drops idle connections of managed origins without waiters (`idle`: dead, or unused for too long), then the
   empty origins from the map.
   */
  function Swept(p: Pool, idle: set<nat>): Pool
    requires AllLists(p)
  {
    var origins := map o | o in p.origins :: SweptOrigin(p, o, idle);
    p.(origins := origins,
       managed := set o | o in p.managed && !(o in origins && origins[o].connections == [] && origins[o].waiters == []))
  }

  lemma {:induction false} KeptFacts(conns: map<nat, Conn>, list: seq<nat>, idle: set<nat>)
    requires NoDup(list) && forall c :: c in list ==> c in conns
    ensures var k := Kept(conns, list, idle);
      && |k| <= |list| && NoDup(k) && (forall c :: c in k ==> c in list)
      && (forall c :: c in list && conns[c].active != 0 ==> c in k)
  {
    if list != [] {
      var rest := list[1..];
      assert list == [list[0]] + rest;
      KeptFacts(conns, rest, idle);
      assert list[0] !in rest;
    }
  }

  lemma SweptInv(p: Pool, idle: set<nat>)
    requires Inv(p)
    ensures AllLists(p) && Inv(Swept(p, idle))
  {
    hide Inv, Kept;
    forall o | o in p.origins ensures Lists(p, o) {
      OriginFacts(p, o);
    }
    var r := Swept(p, idle);
    assert ListsMove(p, r);
    forall o | o in p.origins ensures ListOk(p, r, o) {
      SweptOk(p, o, idle);
    }
    hide ListsMove, ListOk, Swept;
    ListsInv(p, r);
  }

  lemma SweptOk(p: Pool, o: nat, idle: set<nat>)
    requires Inv(p) && AllLists(p) && o in p.origins
    ensures ListOk(p, Swept(p, idle), o)
  {
    hide Inv, Kept;
    OriginFacts(p, o);
    KeptFacts(p.conns, p.origins[o].connections, idle);
  }

  // ---------------------------------------------------------------- runs

  datatype Event =
    | NewOrigin(o: nat, maxConnections: nat, maxQueued: nat, queueTimeout: Time)
    | NewRequest(r: nat, deadline: Time)
    | Acquire(t: nat, r: nat, o: nat, connectTimeout: Time, env: Env)
    | Wake(t: nat, cancelled: bool, aborted: bool, late: bool, env: Env)
    | EndLease(t: nat)
    | DrainDue(o: nat, env: Env)
    | Sweep(idle: set<nat>)
    | CapacityChanged(c: nat, connected: bool, now: Time)
    | Stop

  ghost predicate Enabled(p: Pool, e: Event) {
    match e
    case NewOrigin(o, _, _, _) => o !in p.origins
    case NewRequest(r, _) => r !in p.requests
    case Acquire(t, r, o, _, env) => t !in p.tickets && r in p.requests && o in p.origins && Honest(p, env.caps)
    case Wake(t, _, _, _, env) => t in p.tickets && !p.tickets[t].status.Leased? && Honest(p, env.caps)
    case EndLease(t) => t in p.tickets && p.tickets[t].status.Leased?
    case DrainDue(o, env) =>
      o in p.origins && Honest(p, env.caps) && (o in p.scheduled || (p.stopping && o in p.managed))
    case CapacityChanged(c, _, _) => c in p.conns
    case _ => true
  }

  function Noted(p: Pool, c: nat, connected: bool, now: Time): Pool
    requires c in p.conns
  {
    var at := p.conns[c].connectedAt;
    var noted := if !connected then None else if at.None? then Some(now) else at;
    Post(p.(conns := p.conns[c := p.conns[c].(connectedAt := noted)]), p.conns[c].origin)
  }

  function Unpost(p: Pool, o: nat): Pool {
    p.(scheduled := p.scheduled - {o})
  }

  lemma UnpostInv(p: Pool, o: nat)
    requires Inv(p)
    ensures Inv(Unpost(p, o))
  {
    hide Inv;
    PlainInv(p, Unpost(p, o));
  }

  function WithOrigin(p: Pool, o: nat, x: Origin): Pool {
    p.(origins := p.origins[o := x], managed := p.managed + {o})
  }

  lemma Steppable(p: Pool, e: Event)
    requires Inv(p) && Enabled(p, e)
    ensures e.Wake? || e.EndLease? ==>
      && Known(p, e.t) && Lists(p, p.tickets[e.t].origin)
      && (InUse(p.tickets[e.t]) ==> p.tickets[e.t].status.conn in p.conns)
    ensures e.Sweep? ==> AllLists(p)
  {
    hide Inv;
    if e.Wake? || e.EndLease? {
      Facts(p, e.t);
      OriginFacts(p, p.tickets[e.t].origin);
    }
    if e.Sweep? {
      SweptInv(p, e.idle);
    }
  }

  /** One step of the pool. */
  ghost function Step(p: Pool, e: Event): Pool
    requires Inv(p) && Enabled(p, e)
  {
    Steppable(p, e);
    match e
    case NewOrigin(o, connections, queued, timeout) => WithOrigin(p, o, Origin([], [], connections, queued, timeout))
    case NewRequest(r, deadline) => p.(requests := p.requests[r := Request(deadline, None)])
    case Acquire(t, r, o, timeout, env) => Acquired(p, t, r, o, timeout, env)
    case Wake(t, cancelled, aborted, late, env) => Woken(p, t, cancelled, aborted, late, env)
    case EndLease(t) => Leave(p, t)
    case DrainDue(o, env) =>
      UnpostInv(p, o);
      Drain(Unpost(p, o), o, env).pool
    case Sweep(idle) => Swept(p, idle)
    case CapacityChanged(c, connected, now) => Noted(p, c, connected, now)
    case Stop => p.(stopping := true)
  }

  lemma NewOriginOrigin(p: Pool, o: nat, x: Origin, y: nat)
    requires y in p.origins && OriginOk(p, y) && o !in p.origins
    ensures OriginOk(WithOrigin(p, o, x), y)
  {
  }

  lemma NewOriginConn(p: Pool, o: nat, x: Origin, c: nat)
    requires c in p.conns && ConnOk(p, c) && o !in p.origins
    ensures ConnOk(WithOrigin(p, o, x), c)
  {
    assert Users(WithOrigin(p, o, x), c) == Users(p, c);
  }

  lemma NewOriginTicket(p: Pool, o: nat, x: Origin, t: nat)
    requires Inv(p) && t in p.tickets && o !in p.origins
    ensures p.tickets[t].request in p.requests && TicketOk(WithOrigin(p, o, x), t)
    ensures DeadlinesOk(WithOrigin(p, o, x), t)
  {
    hide Inv;
    TicketFacts(p, t);
  }

  lemma NewOriginItself(p: Pool, o: nat, x: Origin)
    requires x.waiters == [] && x.connections == []
    ensures OriginOk(WithOrigin(p, o, x), o)
  {
  }

  lemma NewOriginTotal(p: Pool, o: nat, x: Origin)
    requires o !in p.origins && x.waiters == []
    ensures Total(WithOrigin(p, o, x).origins) == Total(p.origins)
  {
    hide Total;
    var r := WithOrigin(p, o, x).origins;
    TotalRemove(r, o);
    assert r - {o} == p.origins;
  }

  lemma NewOriginInv(p: Pool, o: nat, x: Origin)
    requires Inv(p) && o !in p.origins && x.waiters == [] && x.connections == []
    ensures Inv(WithOrigin(p, o, x))
  {
    var r := WithOrigin(p, o, x);
    hide Total, OriginOk, ConnOk, DeadlinesOk, TicketOk;
    NewOriginTotal(p, o, x);
    NewOriginItself(p, o, x);
    forall y | y in r.origins ensures OriginOk(r, y) {
      if y != o {
        NewOriginOrigin(p, o, x, y);
      }
    }
    forall c | c in r.conns ensures ConnOk(r, c) {
      NewOriginConn(p, o, x, c);
    }
    forall t | t in r.tickets ensures r.tickets[t].request in r.requests && TicketOk(r, t) && DeadlinesOk(r, t) {
      NewOriginTicket(p, o, x, t);
    }
  }

  lemma StepInv(p: Pool, e: Event)
    requires Inv(p) && Enabled(p, e)
    ensures Inv(Step(p, e))
  {
    hide Inv, WithOrigin, Woken, Acquired, Swept, Drain, Leave;
    match e
    case NewOrigin(o, connections, queued, timeout) => NewOriginInv(p, o, Origin([], [], connections, queued, timeout));
    case NewRequest(r, deadline) => PlainInv(p, p.(requests := p.requests[r := Request(deadline, None)]));
    case Acquire(t, r, o, timeout, env) => AcquiredInv(p, t, r, o, timeout, env);
    case Wake(t, cancelled, aborted, late, env) => WokenInv(p, t, cancelled, aborted, late, env);
    case EndLease(t) => LeaveInv(p, t);
    case DrainDue(o, env) =>
      UnpostInv(p, o);
      DrainServes(Unpost(p, o), o, env);
    case Sweep(idle) => SweptInv(p, idle);
    case CapacityChanged(c, connected, now) => PlainInv(p, Noted(p, c, connected, now));
    case Stop => PlainInv(p, p.(stopping := true));
  }

  lemma AcquiredInv(p: Pool, t: nat, r: nat, o: nat, connectTimeout: Time, e: Env)
    requires Inv(p) && o in p.origins && r in p.requests && t !in p.tickets
    ensures Inv(Acquired(p, t, r, o, connectTimeout, e))
  {
    hide Inv, Drain, Admit;
    DrainReadyFor(p, o, e);
    AdmitInv(Drain(p, o, e).pool, t, r, o, connectTimeout, e);
  }

  /** A run; `Step` is defined on pools that satisfy the invariant, and `RunInv` shows that all pools of a run do. */
  ghost predicate IsRun(pools: seq<Pool>, events: seq<Event>) {
    && |pools| == |events| + 1 && pools[0] == Init()
    && (forall i :: 0 <= i < |events| ==> Enabled(pools[i], events[i]))
    && (forall i :: 0 <= i < |events| && Inv(pools[i]) ==> pools[i + 1] == Step(pools[i], events[i]))
  }

  lemma InitInv()
    ensures Inv(Init())
  {
  }

  /** Accounting, over every run: counts, queue total and limits. */
  lemma {:induction false} RunInv(pools: seq<Pool>, events: seq<Event>, n: nat)
    requires IsRun(pools, events) && n < |pools|
    ensures Inv(pools[n])
    decreases n
  {
    hide Step, Enabled, Inv;
    if n == 0 {
      InitInv();
    } else {
      RunInv(pools, events, n - 1);
      StepInv(pools[n - 1], events[n - 1]);
    }
  }

  /** What the counters mean in every reachable state. */
  lemma Accounting(pools: seq<Pool>, events: seq<Event>, n: nat)
    requires IsRun(pools, events) && n < |pools|
    ensures var p := pools[n];
      && p.queuedRequests == Total(p.origins)
      && (forall c :: c in p.conns ==> p.conns[c].active == |set t | t in p.tickets && HasUser(p.tickets[t], c)|)
      && (forall o :: o in p.origins ==> |p.origins[o].connections| <= p.origins[o].maxConnections)
      && (forall o :: o in p.origins ==> |p.origins[o].waiters| <= p.origins[o].maxQueued)
  {
    RunInv(pools, events, n);
    var p := pools[n];
    forall c | c in p.conns ensures p.conns[c].active == |set t | t in p.tickets && HasUser(p.tickets[t], c)| {
      assert ConnOk(p, c);
      assert Users(p, c) == set t | t in p.tickets && HasUser(p.tickets[t], c);
    }
    forall o | o in p.origins
      ensures |p.origins[o].connections| <= p.origins[o].maxConnections
      ensures |p.origins[o].waiters| <= p.origins[o].maxQueued
    {
      assert OriginOk(p, o);
    }
  }

  // ---------------------------------------------------------------- limits of the grants

  /** What taking in a newcomer may change: its own ticket and the lists of its origin. */
  lemma EnqueueShape(p: Pool, t: nat, r: nat, o: nat, connectTimeout: Time, e: Env)
    requires o in p.origins && r in p.requests
    ensures var q := Enqueue(p, t, r, o, connectTimeout, e);
      && q.conns == p.conns && q.tickets.Keys == p.tickets.Keys + {t} && q.tickets[t].status == Queued
      && (forall x :: x in p.tickets && x != t ==> q.tickets[x] == p.tickets[x])
      && q.origins == p.origins[o := p.origins[o].(waiters := p.origins[o].waiters + [t])]
      && (forall x :: DeadlineKept(p, q, x)) && q.scheduled == p.scheduled
  {
    hide CapOf, DeadlineAfter;
  }

  lemma LeaseShape(p: Pool, t: nat, r: nat, o: nat, c: nat, connectTimeout: Time, connected: bool)
    requires r in p.requests && c in p.conns
    ensures var q := LeaseDirect(p, t, r, o, c, connectTimeout, connected);
      && q.conns == p.conns[c := p.conns[c].(active := p.conns[c].active + 1)]
      && q.tickets.Keys == p.tickets.Keys + {t} && q.tickets[t].origin == o && q.tickets[t].status == Leased(c)
      && (forall x :: x in p.tickets && x != t ==> q.tickets[x] == p.tickets[x])
      && q.origins == p.origins && q.requests == p.requests && q.scheduled == p.scheduled
  {
  }

  lemma SelectActive(p: Pool, s: Selected, o: nat, c: nat)
    requires o in p.origins && SelectKept(p, s, o)
    ensures ActiveOf(s.pool, c) == ActiveOf(p, c) && s.pool.requests == p.requests && o in s.pool.origins
  {
  }

  lemma AdmitGrows(p: Pool, t: nat, r: nat, o: nat, connectTimeout: Time, e: Env, c: nat)
    requires Inv(p) && Lists(p, o) && r in p.requests && Honest(p, e.caps)
    ensures Grows(p, Admit(p, t, r, o, connectTimeout, e), e.caps, c)
  {
    hide Inv, Select, CapOf, Limit, LeaseDirect, Enqueue, SelectKept, ListsMove;
    SelectInv(p, o, e.caps);
    SelectLimit(p, o, e.caps);
    SelectActive(p, Select(p, o, e.caps), o, c);
    var s := if p.origins[o].waiters == [] then Select(p, o, e.caps) else Selected(p, None);
    if s.conn.Some? {
      LeaseShape(s.pool, t, r, o, s.conn.value, connectTimeout, CapOf(e.caps, s.conn.value).connected);
    } else {
      EnqueueShape(s.pool, t, r, o, connectTimeout, e);
    }
  }

  lemma DrainAllGrows(p: Pool, o: nat, e: Env, c: nat)
    requires Inv(p) && o in p.origins && Honest(p, e.caps)
    ensures Grows(p, Drain(p, o, e).pool, e.caps, c)
  {
    hide Inv, DrainFrom, RefreshAll, Limit, CapOf;
    DrainReady(p, o, e);
    var list := p.origins[o].waiters;
    DrainGrows(RefreshAll(p, o, list, e), o, list, e, c);
  }

  lemma AcquiredGrows(p: Pool, t: nat, r: nat, o: nat, connectTimeout: Time, e: Env, c: nat)
    requires Inv(p) && o in p.origins && r in p.requests && Honest(p, e.caps)
    ensures Grows(p, Acquired(p, t, r, o, connectTimeout, e), e.caps, c)
  {
    hide Inv, Drain, Admit, CapOf, Limit;
    DrainReadyFor(p, o, e);
    DrainServes(p, o, e);
    DrainAllGrows(p, o, e, c);
    AdmitGrows(Drain(p, o, e).pool, t, r, o, connectTimeout, e, c);
  }

  lemma LeaveGrows(p: Pool, t: nat, c: nat)
    requires Known(p, t) && (InUse(p.tickets[t]) ==> p.tickets[t].status.conn in p.conns)
    ensures ActiveOf(Leave(p, t), c) <= ActiveOf(p, c)
  {
    hide Without;
  }

  lemma WokenGrows(p: Pool, t: nat, cancelled: bool, aborted: bool, late: bool, e: Env, c: nat)
    requires Inv(p) && t in p.tickets && Known(p, t) && Lists(p, p.tickets[t].origin)
    requires InUse(p.tickets[t]) ==> p.tickets[t].status.conn in p.conns
    ensures ActiveOf(Woken(p, t, cancelled, aborted, late, e), c) <= ActiveOf(p, c)
  {
    hide Inv, Refresh, Leave, CapOf, DeadlineAfter;
    RefreshShape(p, t, e);
    LeaveGrows(Refresh(p, t, e), t, c);
  }

  /** The capacities that a step acts on. */
  function CapsOf(e: Event): Caps {
    match e
    case Acquire(_, _, _, _, env) => env.caps
    case Wake(_, _, _, _, env) => env.caps
    case DrainDue(_, env) => env.caps
    case _ => map[]
  }

  /**
   In every reachable state, a step that adds users to a connection leaves an HTTP/2 connection within both
   stream limits and any other with one user.
   */
  lemma GrantsWithinLimits(pools: seq<Pool>, events: seq<Event>, n: nat, c: nat)
    requires IsRun(pools, events) && n < |events| && ActiveOf(pools[n + 1], c) > ActiveOf(pools[n], c)
    ensures var cap := CapOf(CapsOf(events[n]), c);
      var streams := Min(cap.session.localLimit, cap.session.peerLimit);
      ActiveOf(pools[n + 1], c) <= if cap.connected && cap.protocol == Http2 then streams else 1
  {
    RunInv(pools, events, n);
    StepGrows(pools[n], events[n], c);
    hide Inv, Step;
  }

  lemma StepGrows(p: Pool, e: Event, c: nat)
    requires Inv(p) && Enabled(p, e)
    ensures Grows(p, Step(p, e), CapsOf(e), c)
  {
    hide Inv, Woken, Acquired, Drain, Leave, CapOf, Limit;
    Steppable(p, e);
    match e
    case Acquire(t, r, o, timeout, env) => AcquiredGrows(p, t, r, o, timeout, env, c);
    case Wake(t, cancelled, aborted, late, env) => WokenGrows(p, t, cancelled, aborted, late, env, c);
    case EndLease(t) => LeaveGrows(p, t, c);
    case DrainDue(o, env) =>
      UnpostInv(p, o);
      DrainAllGrows(Unpost(p, o), o, env, c);
    case _ =>
  }

  // ---------------------------------------------------------------- the queue deadline

  ghost predicate DeadlineKept(p: Pool, q: Pool, r: nat) {
    r in p.requests ==>
      && r in q.requests && q.requests[r].deadline == p.requests[r].deadline
      && (p.requests[r].queueDeadline.Some? ==> q.requests[r].queueDeadline == p.requests[r].queueDeadline)
  }

  lemma AdmitKeepsDeadline(p: Pool, t: nat, r: nat, o: nat, connectTimeout: Time, e: Env, x: nat)
    requires Inv(p) && Lists(p, o) && r in p.requests
    ensures DeadlineKept(p, Admit(p, t, r, o, connectTimeout, e), x)
  {
    hide Inv, Select, CapOf, LeaseDirect, Enqueue;
    SelectInv(p, o, e.caps);
    var s := if p.origins[o].waiters == [] then Select(p, o, e.caps) else Selected(p, None);
    if s.conn.Some? {
      LeaseShape(s.pool, t, r, o, s.conn.value, connectTimeout, CapOf(e.caps, s.conn.value).connected);
    } else {
      EnqueueShape(s.pool, t, r, o, connectTimeout, e);
      assert DeadlineKept(s.pool, Enqueue(s.pool, t, r, o, connectTimeout, e), x);
    }
  }

  lemma LeaveKeepsRequests(p: Pool, t: nat)
    requires Known(p, t) && (InUse(p.tickets[t]) ==> p.tickets[t].status.conn in p.conns)
    ensures Leave(p, t).requests == p.requests
  {
  }

  lemma WokenKeepsRequests(p: Pool, t: nat, cancelled: bool, aborted: bool, late: bool, e: Env)
    requires Known(p, t) && Lists(p, p.tickets[t].origin)
    requires (InUse(p.tickets[t]) ==> p.tickets[t].status.conn in p.conns)
    ensures Woken(p, t, cancelled, aborted, late, e).requests == p.requests
  {
    hide Refresh, Leave, CapOf, DeadlineAfter;
    RefreshShape(p, t, e);
    LeaveKeepsRequests(Refresh(p, t, e), t);
  }

  lemma StepKeepsDeadline(p: Pool, e: Event, r: nat)
    requires Inv(p) && Enabled(p, e)
    ensures DeadlineKept(p, Step(p, e), r)
  {
    hide Inv, Drain, Admit, Leave, Woken, SweptOrigin;
    Steppable(p, e);
    match e
    case Acquire(t, x, o, timeout, env) =>
      DrainReadyFor(p, o, env);
      AdmitKeepsDeadline(Drain(p, o, env).pool, t, x, o, timeout, env, r);
    case Wake(t, cancelled, aborted, late, env) => WokenKeepsRequests(p, t, cancelled, aborted, late, env);
    case EndLease(t) => LeaveKeepsRequests(p, t);
    case DrainDue(o, env) =>
      UnpostInv(p, o);
      DrainServes(Unpost(p, o), o, env);
    case _ =>
  }

  /** Once a request has been queued, its queue deadline is the same ever after, and no waiter of it outlives that. */
  lemma {:induction false} QueueDeadlineIsFixed(pools: seq<Pool>, events: seq<Event>, i: nat, n: nat, r: nat)
    requires IsRun(pools, events) && i <= n < |pools| && r in pools[i].requests
    requires pools[i].requests[r].queueDeadline.Some?
    ensures var p, d := pools[n], pools[i].requests[r].queueDeadline.value;
      && r in p.requests && p.requests[r].deadline == pools[i].requests[r].deadline
      && p.requests[r].queueDeadline == Some(d)
      && (forall t :: t in p.tickets && p.tickets[t].request == r && Waits(p.tickets[t]) ==>
            p.tickets[t].expiry <= p.tickets[t].queueDeadline == Min(p.requests[r].deadline, d))
    decreases n - i
  {
    hide Inv, Step, Enabled;
    RunInv(pools, events, n);
    if i < n {
      QueueDeadlineIsFixed(pools, events, i, n - 1, r);
      RunInv(pools, events, n - 1);
      StepKeepsDeadline(pools[n - 1], events[n - 1], r);
    }
    forall t | t in pools[n].tickets ensures TicketOk(pools[n], t) && DeadlinesOk(pools[n], t) {
      TicketFacts(pools[n], t);
    }
  }

  // ---------------------------------------------------------------- no overtaking

  /** The tickets in front of `t`. */
  ghost function Front(q: seq<nat>, t: nat): set<nat> {
    if q == [] || q[0] == t then {} else {q[0]} + Front(q[1..], t)
  }

  lemma {:induction false} FrontOfRest(q: seq<nat>, n: nat, t: nat)
    requires n <= |q| && t in q[n..] && NoDup(q)
    ensures Front(q[n..], t) <= Front(q, t) && forall u :: u in q[..n] ==> u in Front(q, t)
  {
    if n > 0 {
      assert q[1..][n - 1..] == q[n..] && q[..n] == [q[0]] + q[1..][..n - 1];
      FrontOfRest(q[1..], n - 1, t);
    } else {
      assert q[0..] == q;
    }
  }

  lemma {:induction false} FrontAppend(q: seq<nat>, u: nat, t: nat)
    requires t in q
    ensures Front(q + [u], t) == Front(q, t)
  {
    if q[0] != t {
      assert (q + [u])[1..] == q[1..] + [u];
      FrontAppend(q[1..], u, t);
    }
  }

  lemma {:induction false} FrontWithout(q: seq<nat>, u: nat, t: nat)
    requires u != t
    ensures Front(Without(q, u), t) <= Front(q, t)
  {
    if q != [] {
      FrontWithout(q[1..], u, t);
      if q[0] != u {
        assert Without(q, u) == [q[0]] + Without(q[1..], u);
        assert Without(q, u)[1..] == Without(q[1..], u) && Without(q, u)[0] == q[0];
      } else {
        assert Without(q, u) == Without(q[1..], u);
      }
    }
  }

  ghost function FrontAt(p: Pool, t: nat, o: nat): set<nat> {
    if o in p.origins then Front(p.origins[o].waiters, t) else {}
  }

  ghost predicate QueuedAt(p: Pool, t: nat, o: nat) {
    t in p.tickets && p.tickets[t].status == Queued && p.tickets[t].origin == o && o in p.origins
  }

  /** `u` holds a connection of origin `o`, as a reservation or as a lease. */
  ghost predicate Holds(p: Pool, u: nat, o: nat) {
    u in p.tickets && p.tickets[u].origin == o && InUse(p.tickets[u])
  }

  /** Nobody who was not in front of `t` gets past it. */
  ghost predicate NoJump(p: Pool, q: Pool, t: nat, o: nat, u: nat) {
    QueuedAt(p, t, o) && QueuedAt(q, t, o) ==>
      && (u in FrontAt(q, t, o) ==> u in FrontAt(p, t, o))
      && (Holds(q, u, o) && !Holds(p, u, o) ==> u in FrontAt(p, t, o))
  }

  lemma DrainNoJump(p: Pool, x: nat, e: Env, t: nat, o: nat, u: nat)
    requires Inv(p) && x in p.origins
    ensures NoJump(p, Drain(p, x, e).pool, t, o, u)
    ensures QueuedAt(Drain(p, x, e).pool, t, o) ==> QueuedAt(p, t, o)
  {
    hide Inv, Drain, Front;
    DrainServes(p, x, e);
    var d, list := Drain(p, x, e), p.origins[x].waiters;
    OriginFacts(p, x);
    OriginFacts(d.pool, x);
    hide NoDup;
    if QueuedAt(d.pool, t, x) {
      TicketFacts(d.pool, t);
      FrontOfRest(list, d.served, t);
      assert t in list[d.served..] && t in list;
    }
    if QueuedAt(d.pool, t, o) && x != o {
      DrainedElsewhere(p, d, x, t);
    }
    if Holds(d.pool, u, o) && !Holds(p, u, o) {
      assert u in list[..d.served];
      assert u in list;
    }
  }

  lemma DrainedElsewhere(p: Pool, d: Drained, x: nat, t: nat)
    requires Inv(p) && x in p.origins && Serves(p, d, x, p.origins[x].waiters) && t in p.tickets
    requires p.tickets[t].origin != x
    ensures d.pool.tickets[t].status == p.tickets[t].status
  {
    hide Inv, NoDup;
    OriginFacts(p, x);
    var list := p.origins[x].waiters;
    assert forall y :: y in list[..d.served] ==> y in list;
  }

  lemma AdmitNoJump(p: Pool, v: nat, r: nat, x: nat, timeout: Time, e: Env, t: nat, o: nat, u: nat)
    requires Inv(p) && Lists(p, x) && r in p.requests && v !in p.tickets && t != v
    ensures NoJump(p, Admit(p, v, r, x, timeout, e), t, o, u)
  {
    hide Inv, Select, CapOf, LeaseDirect, Enqueue, Front, NoDup;
    SelectInv(p, x, e.caps);
    if QueuedAt(p, t, o) {
      TicketFacts(p, t);
      FrontAppend(p.origins[o].waiters, v, t);
    }
    var s := if p.origins[x].waiters == [] then Select(p, x, e.caps) else Selected(p, None);
    if s.conn.Some? {
      LeaseShape(s.pool, v, r, x, s.conn.value, timeout, CapOf(e.caps, s.conn.value).connected);
    } else {
      EnqueueShape(s.pool, v, r, x, timeout, e);
    }
  }

  lemma LeaveNoJump(p: Pool, v: nat, t: nat, o: nat, u: nat)
    requires Known(p, v) && (InUse(p.tickets[v]) ==> p.tickets[v].status.conn in p.conns) && v != t
    ensures NoJump(p, Leave(p, v), t, o, u)
  {
    hide Front, Without;
    if QueuedAt(p, t, o) {
      FrontWithout(p.origins[o].waiters, v, t);
    }
  }

  lemma RequeueNoJump(p: Pool, v: nat, now: Time, t: nat, o: nat, u: nat)
    requires Inv(p) && Known(p, v) && InUse(p.tickets[v]) && p.tickets[v].status.conn in p.conns && v != t
    ensures NoJump(p, Requeue(p, v, now), t, o, u)
  {
    hide Inv, Front, DeadlineAfter;
    if QueuedAt(p, t, o) {
      TicketFacts(p, t);
      FrontAppend(p.origins[o].waiters, v, t);
    }
  }

  lemma WokenNoJump(p: Pool, v: nat, cancelled: bool, aborted: bool, late: bool, e: Env, t: nat, o: nat, u: nat)
    requires Inv(p) && v in p.tickets && !p.tickets[v].status.Leased? && Known(p, v)
    requires Lists(p, p.tickets[v].origin) && (InUse(p.tickets[v]) ==> p.tickets[v].status.conn in p.conns)
    ensures NoJump(p, Woken(p, v, cancelled, aborted, late, e), t, o, u)
  {
    hide Inv, Refresh, Leave, Requeue, CapOf, Front;
    RefreshShape(p, v, e);
    RefreshInv(p, v, e);
    var q := Refresh(p, v, e);
    if t == v {
      LeaveGone(q, v);
    } else {
      LeaveNoJump(q, v, t, o, u);
      if InUse(q.tickets[v]) {
        RequeueNoJump(q, v, e.now(v), t, o, u);
      }
    }
  }

  lemma LeaveGone(p: Pool, v: nat)
    requires Known(p, v) && (InUse(p.tickets[v]) ==> p.tickets[v].status.conn in p.conns)
    ensures v !in Leave(p, v).tickets
  {
  }

  lemma AcquiredNoJump(p: Pool, v: nat, r: nat, x: nat, timeout: Time, e: Env, t: nat, o: nat, u: nat)
    requires Inv(p) && x in p.origins && r in p.requests && v !in p.tickets && t != v
    ensures NoJump(p, Acquired(p, v, r, x, timeout, e), t, o, u)
  {
    hide Inv, Drain, Admit, Front;
    if !p.stopping && e.now(v) < p.requests[r].deadline {
      DrainReadyFor(p, x, e);
      var q := Drain(p, x, e).pool;
      DrainNoJump(p, x, e, t, o, u);
      AdmitNoJump(q, v, r, x, timeout, e, t, o, u);
      AdmitQueued(q, v, r, x, timeout, e, t, o);
    }
  }

  lemma AdmitQueued(p: Pool, v: nat, r: nat, x: nat, timeout: Time, e: Env, t: nat, o: nat)
    requires Inv(p) && Lists(p, x) && r in p.requests && t != v
    ensures QueuedAt(Admit(p, v, r, x, timeout, e), t, o) ==> QueuedAt(p, t, o)
  {
    hide Inv, Select, CapOf, LeaseDirect, Enqueue;
    SelectInv(p, x, e.caps);
    var s := if p.origins[x].waiters == [] then Select(p, x, e.caps) else Selected(p, None);
    if s.conn.Some? {
      LeaseShape(s.pool, v, r, x, s.conn.value, timeout, CapOf(e.caps, s.conn.value).connected);
    } else {
      EnqueueShape(s.pool, v, r, x, timeout, e);
    }
  }

  lemma StepNoJump(p: Pool, e: Event, t: nat, o: nat, u: nat)
    requires Inv(p) && Enabled(p, e) && QueuedAt(p, t, o)
    ensures NoJump(p, Step(p, e), t, o, u)
  {
    hide Inv, Drain, Acquired, Leave, Woken, Front, Kept;
    Steppable(p, e);
    match e
    case Acquire(v, r, x, timeout, env) => AcquiredNoJump(p, v, r, x, timeout, env, t, o, u);
    case Wake(v, cancelled, aborted, late, env) => WokenNoJump(p, v, cancelled, aborted, late, env, t, o, u);
    case EndLease(v) => LeaveNoJump(p, v, t, o, u);
    case DrainDue(x, env) =>
      UnpostInv(p, x);
      DrainNoJump(Unpost(p, x), x, env, t, o, u);
    case _ =>
  }

  /**
   As long as `t` waits, nobody who was not in front of it obtains a connection of its origin: neither a newcomer
   nor a re-queued waiter.
   */
  lemma {:induction false} NoOvertaking(pools: seq<Pool>, events: seq<Event>, i: nat, n: nat, t: nat, o: nat, u: nat)
    requires IsRun(pools, events) && i <= n < |pools|
    requires forall k :: i <= k <= n ==> QueuedAt(pools[k], t, o)
    requires u !in FrontAt(pools[i], t, o) && !Holds(pools[i], u, o)
    ensures u !in FrontAt(pools[n], t, o) && !Holds(pools[n], u, o)
    decreases n - i
  {
    hide Inv, Step, Enabled, Front;
    if i < n {
      NoOvertaking(pools, events, i, n - 1, t, o, u);
      RunInv(pools, events, n - 1);
      StepNoJump(pools[n - 1], events[n - 1], t, o, u);
    }
  }

  // ---------------------------------------------------------------- no lost wake-up

  lemma RoundFreesNothing(p: Pool, o: nat, t: nat, e: Env, c: nat)
    requires Inv(p) && t in p.tickets && p.tickets[t].origin == o && p.tickets[t].status == Queued
    ensures Known(p, t) && Lists(p, o) && ActiveOf(DrainOne(p, o, t, e).pool, c) >= ActiveOf(p, c)
  {
    hide Inv, Select, Unqueue, CapOf, SelectKept, ListsMove;
    TicketFacts(p, t);
    SelectInv(p, o, e.caps);
    var s := Select(p, o, e.caps);
    SelectActive(p, s, o, c);
    SelectedTickets(p, s, o);
    UnqueueShape(s.pool, t);
    UnqueueShape(p, t);
    UnqueueShape(SetTicket(p, t, p.tickets[t].(error := Some(OperationAborted))), t);
    UnqueueShape(SetTicket(p, t, p.tickets[t].(error := Some(TimedOut))), t);
    hide Without;
  }

  lemma SelectedTickets(p: Pool, s: Selected, o: nat)
    requires o in p.origins && SelectKept(p, s, o)
    ensures s.pool.tickets == p.tickets && s.pool.origins.Keys == p.origins.Keys
  {
  }

  lemma {:induction false} DrainFreesNothing(p: Pool, o: nat, list: seq<nat>, e: Env, c: nat)
    requires Inv(p) && o in p.origins && p.origins[o].waiters == list
    ensures ActiveOf(DrainFrom(p, o, list, e).pool, c) >= ActiveOf(p, c)
    decreases |list|
  {
    hide Inv, DrainOne;
    if list != [] {
      RoundReady(p, o, list, e);
      RoundFreesNothing(p, o, list[0], e, c);
      var round := DrainOne(p, o, list[0], e);
      if round.more {
        DrainFreesNothing(round.pool, o, list[1..], e, c);
      }
    }
  }

  lemma DrainAllFreesNothing(p: Pool, o: nat, e: Env, c: nat)
    requires Inv(p) && o in p.origins
    ensures ActiveOf(Drain(p, o, e).pool, c) >= ActiveOf(p, c)
  {
    hide Inv, DrainFrom, RefreshAll;
    DrainReady(p, o, e);
    var list := p.origins[o].waiters;
    DrainFreesNothing(RefreshAll(p, o, list, e), o, list, e, c);
  }

  lemma AdmitFreesNothing(p: Pool, t: nat, r: nat, o: nat, connectTimeout: Time, e: Env, c: nat)
    requires Inv(p) && Lists(p, o) && r in p.requests
    ensures var q := Admit(p, t, r, o, connectTimeout, e);
      ActiveOf(q, c) >= ActiveOf(p, c) && q.scheduled == p.scheduled
  {
    hide Inv, Select, CapOf, LeaseDirect, Enqueue, ListsMove;
    SelectInv(p, o, e.caps);
    SelectActive(p, Select(p, o, e.caps), o, c);
    var s := if p.origins[o].waiters == [] then Select(p, o, e.caps) else Selected(p, None);
    if s.conn.Some? {
      LeaseShape(s.pool, t, r, o, s.conn.value, connectTimeout, CapOf(e.caps, s.conn.value).connected);
    } else {
      EnqueueShape(s.pool, t, r, o, connectTimeout, e);
    }
  }

  lemma AcquiredFreesNothing(p: Pool, t: nat, r: nat, o: nat, connectTimeout: Time, e: Env, c: nat)
    requires Inv(p) && o in p.origins && r in p.requests
    ensures var q := Acquired(p, t, r, o, connectTimeout, e);
      ActiveOf(q, c) >= ActiveOf(p, c) && q.scheduled == p.scheduled
  {
    hide Inv, Drain, Admit;
    DrainReadyFor(p, o, e);
    DrainServes(p, o, e);
    DrainAllFreesNothing(p, o, e, c);
    AdmitFreesNothing(Drain(p, o, e).pool, t, r, o, connectTimeout, e, c);
  }

  /** What a leaving ticket used is given back with a posted drain. */
  lemma LeavePosts(p: Pool, t: nat, c: nat)
    requires Known(p, t) && (InUse(p.tickets[t]) ==> p.tickets[t].status.conn in p.conns)
    ensures var q := Leave(p, t);
      && p.scheduled <= q.scheduled && (!p.stopping ==> p.tickets[t].origin in q.scheduled)
      && (ActiveOf(q, c) < ActiveOf(p, c) ==> HasUser(p.tickets[t], c))
  {
    hide Without;
  }

  lemma RequeuePosts(p: Pool, t: nat, now: Time, c: nat)
    requires Known(p, t) && InUse(p.tickets[t]) && p.tickets[t].status.conn in p.conns
    ensures var q := Requeue(p, t, now);
      && p.scheduled <= q.scheduled && (!p.stopping ==> p.tickets[t].origin in q.scheduled)
      && (ActiveOf(q, c) < ActiveOf(p, c) ==> HasUser(p.tickets[t], c))
  {
    hide DeadlineAfter;
  }

  lemma WokenPosts(p: Pool, t: nat, cancelled: bool, aborted: bool, late: bool, e: Env, c: nat)
    requires Inv(p) && t in p.tickets && Known(p, t) && Lists(p, p.tickets[t].origin)
    requires InUse(p.tickets[t]) ==> p.tickets[t].status.conn in p.conns
    ensures var q := Woken(p, t, cancelled, aborted, late, e);
      && p.scheduled <= q.scheduled
      && (ActiveOf(q, c) < ActiveOf(p, c) ==> HasUser(p.tickets[t], c))
      && (ActiveOf(q, c) < ActiveOf(p, c) && !p.stopping ==> p.tickets[t].origin in q.scheduled)
  {
    hide Inv, Refresh, Leave, Requeue, CapOf;
    RefreshShape(p, t, e);
    var q := Refresh(p, t, e);
    LeavePosts(q, t, c);
    if q.tickets[t].status.Granted? {
      RequeuePosts(q, t, e.now(t), c);
    }
  }

  /** The step frees a place on connection `c`, or notices a change of its capacity. */
  ghost predicate Frees(p: Pool, e: Event, q: Pool, c: nat) {
    ActiveOf(q, c) < ActiveOf(p, c) || (e.CapacityChanged? && e.c == c)
  }

  lemma UserOrigin(p: Pool, t: nat, c: nat)
    requires Inv(p) && t in p.tickets && HasUser(p.tickets[t], c)
    ensures c in p.conns && p.conns[c].origin == p.tickets[t].origin
  {
    TicketFacts(p, t);
  }

  lemma FreedIsPosted(p: Pool, e: Event, c: nat)
    requires Inv(p) && Enabled(p, e) && c in p.conns && !p.stopping && Frees(p, e, Step(p, e), c)
    ensures p.conns[c].origin in Step(p, e).scheduled
  {
    hide Inv, Woken, Acquired, Drain, Leave, Kept;
    Steppable(p, e);
    match e
    case Acquire(t, r, o, timeout, env) =>
      AcquiredFreesNothing(p, t, r, o, timeout, env, c);
      assert false;
    case Wake(t, cancelled, aborted, late, env) =>
      WokenPosts(p, t, cancelled, aborted, late, env, c);
      UserOrigin(p, t, c);
    case EndLease(t) =>
      LeavePosts(p, t, c);
      UserOrigin(p, t, c);
    case DrainDue(o, env) =>
      UnpostInv(p, o);
      DrainAllFreesNothing(Unpost(p, o), o, env, c);
      assert false;
    case _ =>
  }

  lemma PostedStays(p: Pool, e: Event, o: nat)
    requires Inv(p) && Enabled(p, e) && o in p.scheduled && !(e.DrainDue? && e.o == o)
    ensures o in Step(p, e).scheduled
  {
    hide Inv, Woken, Acquired, Drain, Leave, Kept;
    Steppable(p, e);
    match e
    case Acquire(t, r, x, timeout, env) => AcquiredFreesNothing(p, t, r, x, timeout, env, 0);
    case Wake(t, cancelled, aborted, late, env) => WokenPosts(p, t, cancelled, aborted, late, env, 0);
    case EndLease(t) => LeavePosts(p, t, 0);
    case DrainDue(x, env) =>
      UnpostInv(p, x);
      DrainServes(Unpost(p, x), x, env);
    case _ =>
  }

  /**
   Whenever a place is freed or a capacity changes, a drain of that origin is posted, and stays posted until it
   runs.
   */
  lemma {:induction false} NoLostWakeUp(pools: seq<Pool>, events: seq<Event>, i: nat, n: nat, c: nat)
    requires IsRun(pools, events) && i < n < |pools| && c in pools[i].conns && !pools[i].stopping
    requires Frees(pools[i], events[i], pools[i + 1], c)
    requires forall k :: i < k < n ==> !(events[k].DrainDue? && events[k].o == pools[i].conns[c].origin)
    ensures pools[i].conns[c].origin in pools[n].scheduled
    decreases n - i
  {
    hide Inv, Step, Enabled, Frees;
    if n == i + 1 {
      RunInv(pools, events, i);
      FreedIsPosted(pools[i], events[i], c);
    } else {
      NoLostWakeUp(pools, events, i, n - 1, c);
      RunInv(pools, events, n - 1);
      PostedStays(pools[n - 1], events[n - 1], pools[i].conns[c].origin);
    }
  }
}
