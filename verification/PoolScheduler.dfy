/**
 The per-origin scheduler of the HTTP client pool: choosing a connection, bounded
 queues, reservations, re-queuing and deadlines. One step is one stretch of code on
 the event loop; what a client object reports (`caps`) and the clock (`now`, as read
 for each ticket) are chosen by the environment in every step.
 */
module PoolScheduler {
  import opened Base
  import opened HttpTypes
  import H2 = Http2Session

  type Time = int
  const NEVER: Time := 0x7fff_ffff_ffff_ffff

  datatype PoolCapacity = PoolCapacity(connected: bool, connecting: bool, protocol: Protocol, session: H2.Capacity)

  type Caps = map<nat, PoolCapacity>
  type Clock = nat -> Time

  datatype Conn = Conn(origin: nat, active: int, connectedAt: Option<Time>)

  /** Where a request stands: between places, in the queue, holding a reservation, or holding a lease. */
  datatype Status = Loose | Queued | Granted(conn: nat) | Leased(conn: nat)

  datatype Ticket = Ticket(
    origin: nat,
    request: nat,
    status: Status,
    queueDeadline: Time,
    connectDeadline: Time,
    expiry: Time,                 // of the waiter's timer
    connectTimeout: Time,
    error: Option<ErrorCode>,
    assignedConnected: bool)

  datatype Origin = Origin(connections: seq<nat>, waiters: seq<nat>, maxConnections: nat, maxQueued: nat,
    queueTimeout: Time)

  /** What survives from the first to the second attempt of a request. */
  datatype Request = Request(deadline: Time, queueDeadline: Option<Time>)

  datatype Pool = Pool(
    origins: map<nat, Origin>,    // every origin object, including those dropped from the map
    managed: set<nat>,            // the origins in the map
    conns: map<nat, Conn>,
    tickets: map<nat, Ticket>,
    requests: map<nat, Request>,
    nextConn: nat,
    queuedRequests: int,
    stopping: bool,
    scheduled: set<nat>)          // the origins with a posted drain

  function Init(): Pool {
    Pool(map[], {}, map[], map[], map[], 0, 0, false, {})
  }

  function CapOf(caps: Caps, c: nat): PoolCapacity {
    if c in caps then caps[c] else PoolCapacity(false, false, Http1, H2.Capacity(false, false, 0, 0, 0, 0))
  }

  function DeadlineAfter(now: Time, timeout: Time): (d: Time)
    ensures d <= NEVER
  {
    if timeout > 0 then now + Min(timeout, NEVER - now) else NEVER
  }

  // ---------------------------------------------------------------- choosing a connection

  datatype Scan = Scan(kept: seq<nat>, found: Option<nat>, starting: bool)

  predicate IsDead(k: Conn, cap: PoolCapacity) {
    !cap.connected && k.active == 0 && !cap.connecting
  }

  predicate IsUsable(k: Conn, cap: PoolCapacity) {
    && cap.connected
    && (if cap.protocol == Http1 then k.active == 0
        else
          var reserved := if k.active > cap.session.admitted then k.active - cap.session.admitted else 0;
          cap.session.accepting && cap.session.available > reserved)
  }

  predicate IsStarting(cap: PoolCapacity) {
    !cap.connected || (cap.protocol == Http2 && !cap.session.settingsSeen)
  }

  /** Walks the list: drops dead entries, stops at the first usable one. */
  function ScanFrom(conns: map<nat, Conn>, list: seq<nat>, caps: Caps): (r: Scan)
    requires forall c :: c in list ==> c in conns
    ensures r.found.Some? ==> r.found.value in list
  {
    if list == [] then Scan([], None, false)
    else
      var c := list[0];
      var cap := CapOf(caps, c);
      if IsDead(conns[c], cap) then ScanFrom(conns, list[1..], caps)
      else if IsUsable(conns[c], cap) then Scan(list, Some(c), false)
      else
        var rest := ScanFrom(conns, list[1..], caps);
        Scan([c] + rest.kept, rest.found, IsStarting(cap) || rest.starting)
  }

  lemma ScanUnfold(conns: map<nat, Conn>, list: seq<nat>, caps: Caps, i: nat)
    requires i < |list| && forall c :: c in list ==> c in conns
    ensures var c, here, rest := list[i], ScanFrom(conns, list[i..], caps), ScanFrom(conns, list[i + 1..], caps);
      var cap := CapOf(caps, c);
      && (IsDead(conns[c], cap) ==> here == rest)
      && (!IsDead(conns[c], cap) && IsUsable(conns[c], cap) ==> here == Scan(list[i..], Some(c), false))
      && (!IsDead(conns[c], cap) && !IsUsable(conns[c], cap) ==>
            here == Scan([c] + rest.kept, rest.found, IsStarting(cap) || rest.starting))
  {
    assert list[i..][1..] == list[i + 1..];
  }

  /** The loop over the connections, which erases from the vector as it goes. */
  method ScanLoop(conns: map<nat, Conn>, list: seq<nat>, caps: Caps) returns (r: Scan)
    requires forall c :: c in list ==> c in conns
    ensures r == ScanFrom(conns, list, caps)
  {
    hide ScanFrom;
    var starting, i, kept := false, 0, [];
    assert list[0..] == list;
    while i < |list|
      invariant i <= |list|
      invariant var rest := ScanFrom(conns, list[i..], caps);
        ScanFrom(conns, list, caps) == Scan(kept + rest.kept, rest.found, starting || rest.starting)
    {
      var c := list[i];
      ScanUnfold(conns, list, caps, i);
      var cap, active := CapOf(caps, c), conns[c].active;
      if !cap.connected {
        if active == 0 && !cap.connecting {
          i := i + 1;
          continue;
        }
        starting := true;
      } else if cap.protocol == Http1 {
        if active == 0 {
          return Scan(kept + list[i..], Some(c), starting);
        }
      } else {
        var reserved := if active > cap.session.admitted then active - cap.session.admitted else 0;
        if cap.session.accepting && cap.session.available > reserved {
          return Scan(kept + list[i..], Some(c), starting);
        }
        starting := starting || !cap.session.settingsSeen;
      }
      kept := kept + [c];
      i := i + 1;
    }
    ScanEmpty(conns, caps);
    return Scan(kept, None, starting);
  }

  lemma ScanEmpty(conns: map<nat, Conn>, caps: Caps)
    ensures ScanFrom(conns, [], caps) == Scan([], None, false)
  {
  }

  // ---------------------------------------------------------------- the primitive moves

  predicate Known(p: Pool, t: nat) {
    t in p.tickets && p.tickets[t].origin in p.origins
  }

  predicate HasUser(k: Ticket, c: nat) {
    k.status == Granted(c) || k.status == Leased(c)
  }

  predicate InUse(k: Ticket) {
    k.status.Granted? || k.status.Leased?
  }

  /** In the queue, or granted a connection that it has not claimed. */
  predicate Waits(k: Ticket) {
    k.status == Queued || k.status.Granted?
  }

  function SetTicket(p: Pool, t: nat, k: Ticket): Pool {
    p.(tickets := p.tickets[t := k])
  }

  function SetWaiters(p: Pool, o: nat, waiters: seq<nat>): Pool
    requires o in p.origins
  {
    p.(origins := p.origins[o := p.origins[o].(waiters := waiters)])
  }

  function AddActive(p: Pool, c: nat, d: int): Pool
    requires c in p.conns
  {
    p.(conns := p.conns[c := p.conns[c].(active := p.conns[c].active + d)])
  }

  /** Appends a loose ticket to its origin's queue. */
  function Push(p: Pool, t: nat): Pool
    requires Known(p, t)
  {
    var k := p.tickets[t];
    SetWaiters(SetTicket(p, t, k.(status := Queued)), k.origin, p.origins[k.origin].waiters + [t])
      .(queuedRequests := p.queuedRequests + 1)
  }

  /** Takes a ticket out of its origin's queue, wherever it stands; nothing if it is not queued. */
  function Unqueue(p: Pool, t: nat): Pool
    requires Known(p, t)
  {
    var k := p.tickets[t];
    if k.status != Queued then p
    else SetWaiters(SetTicket(p, t, k.(status := Loose)), k.origin, Without(p.origins[k.origin].waiters, t))
           .(queuedRequests := p.queuedRequests - 1)
  }

  /** Reserves a connection for a loose ticket, or leases it outright. */
  function Give(p: Pool, t: nat, place: Status, connected: bool): Pool
    requires t in p.tickets && (place.Granted? || place.Leased?) && place.conn in p.conns
  {
    AddActive(SetTicket(p, t, p.tickets[t].(status := place, assignedConnected := connected)), place.conn, 1)
  }

  /** Posts a drain of origin `o`, unless the pool is stopping. */
  function Post(p: Pool, o: nat): Pool {
    if p.stopping then p else p.(scheduled := p.scheduled + {o})
  }

  /** Gives back the reservation or the lease of a ticket, and has the queue looked at. */
  function TakeBack(p: Pool, t: nat): Pool
    requires t in p.tickets && InUse(p.tickets[t]) && p.tickets[t].status.conn in p.conns
  {
    var k := p.tickets[t];
    Post(AddActive(SetTicket(p, t, k.(status := Loose, assignedConnected := false)), k.status.conn, -1), k.origin)
  }

  /** A reservation becomes a lease; the count does not move. */
  function Claim(p: Pool, t: nat): Pool
    requires t in p.tickets && p.tickets[t].status.Granted?
  {
    SetTicket(p, t, p.tickets[t].(status := Leased(p.tickets[t].status.conn)))
  }

  function Forget(p: Pool, t: nat): Pool {
    p.(tickets := p.tickets - {t})
  }

  // ---------------------------------------------------------------- the invariant

  ghost predicate NoDup(q: seq<nat>) {
    forall i, j :: 0 <= i < j < |q| ==> q[i] != q[j]
  }

  ghost function Users(p: Pool, c: nat): set<nat> {
    set t | t in p.tickets && HasUser(p.tickets[t], c)
  }

  /** Total length of the queues of all origin objects. */
  ghost function Total(origins: map<nat, Origin>): nat {
    if origins == map[] then 0
    else
      var o :| o in origins;
      |origins[o].waiters| + Total(origins - {o})
  }

  ghost predicate OriginOk(p: Pool, o: nat)
    requires o in p.origins
  {
    var x := p.origins[o];
    && |x.connections| <= x.maxConnections && |x.waiters| <= x.maxQueued
    && NoDup(x.waiters) && NoDup(x.connections)
    && (forall c :: c in x.connections ==> c in p.conns && p.conns[c].origin == o)
    && (forall t :: t in x.waiters ==> t in p.tickets && p.tickets[t].status == Queued && p.tickets[t].origin == o)
  }

  ghost predicate TicketOk(p: Pool, t: nat)
    requires t in p.tickets
  {
    var k := p.tickets[t];
    && k.origin in p.origins && k.request in p.requests
    && (k.status == Queued ==> t in p.origins[k.origin].waiters)
    && (InUse(k) ==> k.status.conn in p.conns && p.conns[k.status.conn].origin == k.origin)
  }

  /**
   The timer is set to the earlier of the connect deadline and the queue deadline, which the request fixed once for
   all its attempts.
   */
  ghost predicate DeadlinesOk(p: Pool, t: nat)
    requires t in p.tickets && p.tickets[t].request in p.requests
  {
    var k, r := p.tickets[t], p.requests[p.tickets[t].request];
    && k.expiry <= k.queueDeadline <= r.deadline
    && (Waits(k) ==> r.queueDeadline.Some? && k.queueDeadline == Min(r.deadline, r.queueDeadline.value))
    && (Waits(k) ==> k.queueDeadline <= NEVER && k.expiry == Min(k.queueDeadline, k.connectDeadline))
  }

  ghost predicate ConnOk(p: Pool, c: nat)
    requires c in p.conns
  {
    && c < p.nextConn && p.conns[c].origin in p.origins
    && p.conns[c].active == |Users(p, c)|
    && (p.conns[c].active > 0 ==> c in p.origins[p.conns[c].origin].connections)
  }

  ghost predicate Inv(p: Pool) {
    && (forall o :: o in p.origins ==> OriginOk(p, o))
    && (forall t :: t in p.tickets ==> TicketOk(p, t) && DeadlinesOk(p, t))
    && (forall c :: c in p.conns ==> ConnOk(p, c))
    && p.queuedRequests == Total(p.origins)
    && BudgetsOk(p.requests)
  }

  ghost predicate BudgetsOk(requests: map<nat, Request>) {
    forall r :: r in requests && requests[r].queueDeadline.Some? ==> requests[r].queueDeadline.value <= NEVER
  }

  // ---------------------------------------------------------------- arithmetic of the total

  lemma {:induction false} TotalRemove(m: map<nat, Origin>, o: nat)
    requires o in m
    ensures Total(m) == |m[o].waiters| + Total(m - {o})
    decreases |m|
  {
    var x :| x in m && Total(m) == |m[x].waiters| + Total(m - {x});
    if x != o {
      TotalRemove(m - {x}, o);
      TotalRemove(m - {o}, x);
      assert m - {x} - {o} == m - {o} - {x};
    }
  }

  lemma TotalUpdate(m: map<nat, Origin>, o: nat, x: Origin)
    requires o in m
    ensures Total(m[o := x]) == Total(m) - |m[o].waiters| + |x.waiters|
  {
    TotalRemove(m, o);
    TotalRemove(m[o := x], o);
    assert m[o := x] - {o} == m - {o};
  }

  lemma NoDupRest(q: seq<nat>)
    requires NoDup(q) && q != []
    ensures NoDup(q[1..]) && q[0] !in q[1..] && q == [q[0]] + q[1..]
  {
  }

  lemma NoDupCons(t: nat, q: seq<nat>)
    requires NoDup(q) && t !in q
    ensures NoDup([t] + q)
  {
  }

  lemma {:induction false} WithoutOne(q: seq<nat>, t: nat)
    requires NoDup(q) && t in q
    ensures |Without(q, t)| == |q| - 1 && NoDup(Without(q, t))
    ensures forall x :: x in Without(q, t) <==> x in q && x != t
  {
    hide NoDup;
    NoDupRest(q);
    if q[0] == t {
      WithoutNone(q[1..], t);
      assert Without(q, t) == q[1..];
    } else {
      WithoutOne(q[1..], t);
      assert Without(q, t) == [q[0]] + Without(q[1..], t);
      NoDupCons(q[0], Without(q[1..], t));
    }
  }

  lemma {:induction false} WithoutNone(q: seq<nat>, t: nat)
    requires t !in q
    ensures Without(q, t) == q
  {
    if q != [] {
      WithoutNone(q[1..], t);
    }
  }

  // ---------------------------------------------------------------- the primitive moves keep the invariant

  /** Only ticket `t`, the counts of the connections and the queues may differ. */
  ghost predicate SameElsewhere(p: Pool, r: Pool, t: nat) {
    && r.origins.Keys == p.origins.Keys && r.conns.Keys == p.conns.Keys && r.requests == p.requests
    && r.nextConn == p.nextConn
    && (forall o :: o in p.origins ==> r.origins[o] == p.origins[o].(waiters := r.origins[o].waiters))
    && (forall c :: c in p.conns ==> r.conns[c] == p.conns[c].(active := r.conns[c].active))
    && (forall x :: x != t ==> (x in r.tickets <==> x in p.tickets))
    && (forall x :: x != t && x in p.tickets ==> r.tickets[x] == p.tickets[x])
  }

  lemma OriginStays(p: Pool, r: Pool, o: nat, t: nat)
    requires SameElsewhere(p, r, t) && o in p.origins && OriginOk(p, o) && r.origins[o].waiters == p.origins[o].waiters
    requires t in p.origins[o].waiters ==> t in r.tickets && r.tickets[t].status == Queued && r.tickets[t].origin == o
    ensures OriginOk(r, o)
  {
  }

  lemma TicketStays(p: Pool, r: Pool, x: nat, t: nat)
    requires SameElsewhere(p, r, t) && x in p.tickets && x != t && TicketOk(p, x) && DeadlinesOk(p, x)
    requires p.tickets[x].status == Queued ==> x in r.origins[p.tickets[x].origin].waiters
    ensures x in r.tickets && TicketOk(r, x) && DeadlinesOk(r, x)
  {
  }

  ghost function Uses(p: Pool, t: nat, c: nat): int {
    if t in p.tickets && HasUser(p.tickets[t], c) then 1 else 0
  }

  lemma ConnStays(p: Pool, r: Pool, c: nat, t: nat)
    requires SameElsewhere(p, r, t) && c in p.conns && ConnOk(p, c)
    requires r.conns[c].active - p.conns[c].active == Uses(r, t, c) - Uses(p, t, c)
    requires r.conns[c].active > p.conns[c].active ==> c in p.origins[p.conns[c].origin].connections
    ensures ConnOk(r, c)
  {
    if Uses(r, t, c) > Uses(p, t, c) {
      assert Users(r, c) == Users(p, c) + {t};
    } else if Uses(r, t, c) < Uses(p, t, c) {
      assert t in Users(p, c) && Users(r, c) == Users(p, c) - {t};
    } else {
      assert Users(r, c) == Users(p, c);
    }
  }

  /** The counts follow the ticket, and grow only on connections that are listed. */
  ghost predicate CountsMove(p: Pool, r: Pool, t: nat) {
    forall c :: c in p.conns && c in r.conns ==>
      && r.conns[c].active - p.conns[c].active == Uses(r, t, c) - Uses(p, t, c)
      && (r.conns[c].active > p.conns[c].active ==>
            p.conns[c].origin in p.origins && c in p.origins[p.conns[c].origin].connections)
  }

  lemma MoveConns(p: Pool, r: Pool, t: nat)
    requires SameElsewhere(p, r, t) && CountsMove(p, r, t)
    requires forall c :: c in p.conns ==> ConnOk(p, c)
    ensures forall c :: c in r.conns ==> ConnOk(r, c)
  {
    hide ConnOk, Uses;
    forall c | c in r.conns ensures ConnOk(r, c) {
      ConnStays(p, r, c, t);
    }
  }

  lemma MoveTickets(p: Pool, r: Pool, t: nat)
    requires SameElsewhere(p, r, t) && r.origins == p.origins
    requires forall x :: x in p.tickets ==> TicketOk(p, x) && DeadlinesOk(p, x)
    requires t in r.tickets ==> TicketOk(r, t) && DeadlinesOk(r, t)
    ensures forall x :: x in r.tickets ==> TicketOk(r, x) && DeadlinesOk(r, x)
  {
    forall x | x in r.tickets ensures TicketOk(r, x) && DeadlinesOk(r, x) {
      if x != t {
        TicketStays(p, r, x, t);
      }
    }
  }

  lemma MoveOrigins(p: Pool, r: Pool, t: nat)
    requires SameElsewhere(p, r, t) && r.origins == p.origins
    requires forall o :: o in p.origins ==> OriginOk(p, o)
    requires t in p.tickets && p.tickets[t].status == Queued ==>
      t in r.tickets && r.tickets[t].status == Queued && r.tickets[t].origin == p.tickets[t].origin
    ensures forall o :: o in r.origins ==> OriginOk(r, o)
  {
    forall o | o in r.origins ensures OriginOk(r, o) {
      assert OriginOk(p, o);
      OriginStays(p, r, o, t);
    }
  }

  /** A move of one ticket that leaves the queues alone. */
  lemma MoveInv(p: Pool, r: Pool, t: nat)
    requires Inv(p) && SameElsewhere(p, r, t) && r.queuedRequests == p.queuedRequests
    requires r.origins == p.origins && CountsMove(p, r, t)
    requires t in p.tickets && p.tickets[t].status == Queued ==>
      t in r.tickets && r.tickets[t].status == Queued && r.tickets[t].origin == p.tickets[t].origin
    requires t in r.tickets ==> r.tickets[t].request in r.requests && TicketOk(r, t) && DeadlinesOk(r, t)
    ensures Inv(r)
  {
    hide OriginOk, ConnOk, CountsMove, Total, DeadlinesOk;
    assert r.requests == p.requests;
    hide SameElsewhere;
    MoveOrigins(p, r, t);
    MoveTickets(p, r, t);
    MoveConns(p, r, t);
  }

  lemma Facts(p: Pool, t: nat)
    requires Inv(p) && t in p.tickets
    ensures TicketOk(p, t) && DeadlinesOk(p, t) && OriginOk(p, p.tickets[t].origin)
    ensures InUse(p.tickets[t]) ==> ConnOk(p, p.tickets[t].status.conn)
  {
  }

  lemma GiveInv(p: Pool, t: nat, place: Status, connected: bool)
    requires Inv(p) && t in p.tickets && p.tickets[t].status == Loose && (place.Granted? || place.Leased?)
    requires place.conn in p.conns && p.conns[place.conn].origin == p.tickets[t].origin
    requires p.tickets[t].origin in p.origins && place.conn in p.origins[p.tickets[t].origin].connections
    requires p.tickets[t].request in p.requests && DeadlinesOk(Give(p, t, place, connected), t)
    ensures Inv(Give(p, t, place, connected))
  {
    hide Inv, OriginOk, ConnOk, DeadlinesOk;
    var c, r := place.conn, Give(p, t, place, connected);
    Facts(p, t);
    assert TicketOk(r, t);
    assert SameElsewhere(p, r, t);
    assert CountsMove(p, r, t) by {
      forall d | d in p.conns && d != c ensures Uses(r, t, d) == Uses(p, t, d) {
      }
    }
    hide Give, SameElsewhere, CountsMove;
    MoveInv(p, r, t);
  }

  lemma TakeBackMoves(p: Pool, t: nat)
    requires t in p.tickets && InUse(p.tickets[t]) && p.tickets[t].status.conn in p.conns
    ensures SameElsewhere(p, TakeBack(p, t), t) && CountsMove(p, TakeBack(p, t), t)
    ensures var r := TakeBack(p, t); r.origins == p.origins && r.queuedRequests == p.queuedRequests
  {
  }

  lemma TakeBackInv(p: Pool, t: nat)
    requires Inv(p) && t in p.tickets && InUse(p.tickets[t])
    ensures p.tickets[t].status.conn in p.conns && Inv(TakeBack(p, t))
  {
    hide Inv, OriginOk, ConnOk, SameElsewhere, CountsMove;
    Facts(p, t);
    TakeBackMoves(p, t);
    MoveInv(p, TakeBack(p, t), t);
  }

  /** A ticket changes without moving: same place, same connection. */
  lemma SetTicketInv(p: Pool, t: nat, k: Ticket)
    requires Inv(p) && t in p.tickets
    requires k.origin == p.tickets[t].origin && k.request == p.tickets[t].request && k.request in p.requests
    requires
      || k.status == p.tickets[t].status
      || (p.tickets[t].status.Granted? && k.status == Leased(p.tickets[t].status.conn))
    requires DeadlinesOk(SetTicket(p, t, k), t)
    ensures Inv(SetTicket(p, t, k))
  {
    var r := SetTicket(p, t, k);
    hide Inv, OriginOk, ConnOk;
    Facts(p, t);
    assert SameElsewhere(p, r, t);
    assert CountsMove(p, r, t);
    MoveInv(p, r, t);
  }

  lemma NewTicketInv(p: Pool, t: nat, k: Ticket)
    requires Inv(p) && t !in p.tickets && k.status == Loose && k.origin in p.origins && k.request in p.requests
    requires DeadlinesOk(SetTicket(p, t, k), t)
    ensures Inv(SetTicket(p, t, k))
  {
    var r := SetTicket(p, t, k);
    hide Inv;
    assert SameElsewhere(p, r, t);
    assert CountsMove(p, r, t);
    MoveInv(p, r, t);
  }

  lemma ForgetInv(p: Pool, t: nat)
    requires Inv(p) && t in p.tickets && p.tickets[t].status == Loose
    ensures Inv(Forget(p, t))
  {
    var r := Forget(p, t);
    hide Inv;
    assert SameElsewhere(p, r, t);
    assert CountsMove(p, r, t);
    MoveInv(p, r, t);
  }

  /** A move of one ticket into or out of the queue of its origin `o`. */
  lemma QueueInv(p: Pool, r: Pool, t: nat, o: nat)
    requires Inv(p) && SameElsewhere(p, r, t) && CountsMove(p, r, t) && o in p.origins
    requires forall x :: x in p.origins && x != o ==> r.origins[x] == p.origins[x]
    requires t in p.tickets ==> p.tickets[t].origin == o
    requires OriginOk(r, o) && forall x :: x in p.origins[o].waiters && x != t ==> x in r.origins[o].waiters
    requires t in r.tickets && r.tickets[t].request in r.requests && TicketOk(r, t) && DeadlinesOk(r, t)
    requires r.queuedRequests == Total(r.origins)
    ensures Inv(r)
  {
    hide OriginOk, Total, ConnOk, DeadlinesOk;
    QueueOrigins(p, r, t, o);
    QueueTickets(p, r, t, o);
    MoveConns(p, r, t);
  }

  lemma QueueOrigins(p: Pool, r: Pool, t: nat, o: nat)
    requires SameElsewhere(p, r, t) && o in p.origins && (t in p.tickets ==> p.tickets[t].origin == o)
    requires forall x :: x in p.origins ==> OriginOk(p, x)
    requires forall x :: x in p.origins && x != o ==> r.origins[x] == p.origins[x]
    requires OriginOk(r, o)
    ensures forall x :: x in r.origins ==> OriginOk(r, x)
  {
    forall x | x in r.origins ensures OriginOk(r, x) {
      if x != o {
        assert OriginOk(p, x);
        OriginStays(p, r, x, t);
      }
    }
  }

  lemma QueueTickets(p: Pool, r: Pool, t: nat, o: nat)
    requires SameElsewhere(p, r, t) && o in p.origins
    requires forall x :: x in p.origins && x != o ==> r.origins[x] == p.origins[x]
    requires forall x :: x in p.origins[o].waiters && x != t ==> x in r.origins[o].waiters
    requires forall x :: x in p.tickets ==> TicketOk(p, x) && DeadlinesOk(p, x)
    requires t in r.tickets ==> TicketOk(r, t) && DeadlinesOk(r, t)
    ensures forall x :: x in r.tickets ==> TicketOk(r, x) && DeadlinesOk(r, x)
  {
    forall x | x in r.tickets ensures TicketOk(r, x) && DeadlinesOk(r, x) {
      if x != t {
        TicketStays(p, r, x, t);
      }
    }
  }

  lemma InvTotal(p: Pool)
    requires Inv(p)
    ensures p.queuedRequests == Total(p.origins)
  {
  }

  lemma PushInv(p: Pool, t: nat)
    requires Inv(p) && Known(p, t) && p.tickets[t].status == Loose
    requires var x := p.origins[p.tickets[t].origin]; |x.waiters| < x.maxQueued
    requires p.tickets[t].request in p.requests && DeadlinesOk(Push(p, t), t)
    ensures Inv(Push(p, t))
  {
    hide Inv, DeadlinesOk, OriginOk, Total;
    var o, r := p.tickets[t].origin, Push(p, t);
    PushOrigin(p, t);
    InvTotal(p);
    TotalUpdate(p.origins, o, r.origins[o]);
    assert SameElsewhere(p, r, t);
    assert CountsMove(p, r, t);
    QueueInv(p, r, t, o);
  }

  lemma PushOrigin(p: Pool, t: nat)
    requires Known(p, t) && p.tickets[t].status == Loose && Inv(p)
    requires var x := p.origins[p.tickets[t].origin]; |x.waiters| < x.maxQueued
    ensures OriginOk(Push(p, t), p.tickets[t].origin) && TicketOk(Push(p, t), t)
  {
    hide Inv;
    Facts(p, t);
  }

  lemma UnqueueInv(p: Pool, t: nat)
    requires Inv(p) && Known(p, t)
    ensures Inv(Unqueue(p, t)) && Unqueue(p, t).tickets[t].status != Queued
  {
    hide Inv, DeadlinesOk, OriginOk, Total, Without;
    if p.tickets[t].status == Queued {
      var o, r := p.tickets[t].origin, Unqueue(p, t);
      UnqueueOrigin(p, t);
      InvTotal(p);
      TotalUpdate(p.origins, o, r.origins[o]);
      assert SameElsewhere(p, r, t);
      assert CountsMove(p, r, t);
      QueueInv(p, r, t, o);
    }
  }

  lemma UnqueueOrigin(p: Pool, t: nat)
    requires Known(p, t) && p.tickets[t].status == Queued && Inv(p)
    ensures var o, r := p.tickets[t].origin, Unqueue(p, t);
      && OriginOk(r, o) && TicketOk(r, t) && DeadlinesOk(r, t)
      && |r.origins[o].waiters| == |p.origins[o].waiters| - 1
      && (forall x :: x in r.origins[o].waiters <==> x in p.origins[o].waiters && x != t)
  {
    hide Inv;
    Facts(p, t);
    WithoutOne(p.origins[p.tickets[t].origin].waiters, t);
    hide Without, NoDup;
  }
}
