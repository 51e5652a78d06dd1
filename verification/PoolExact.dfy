/**
 What each operation of the pool's scheduler comes to, exactly: which connection is
 chosen and when none is, who is served, refused, queued or told to wait, which
 deadlines hold, and what a sweep drops. The conditions are on the lists, the reported
 capacities and the clock, not on the scheduler's own steps.
 */
module PoolExact {
  import opened Base
  import opened HttpTypes
  import opened PoolScheduler
  import opened PoolRuns

  // ---------------------------------------------------------------- choosing a connection

  /** The connection can take one more request. */
  predicate HasRoom(k: Conn, cap: PoolCapacity) {
    && cap.connected
    && (cap.protocol == Http1 ==> k.active == 0)
    && (cap.protocol == Http2 ==>
          cap.session.accepting && cap.session.available > 0 && k.active < cap.session.admitted + cap.session.available)
  }

  /** Nobody uses the connection, and it is neither up nor coming up. */
  predicate Gone(k: Conn, cap: PoolCapacity) {
    k.active == 0 && !cap.connected && !cap.connecting
  }

  /** The connection may have room soon: it is not up yet, or its settings are not known. */
  predicate ComingUp(cap: PoolCapacity) {
    !cap.connected || (cap.protocol == Http2 && !cap.session.settingsSeen)
  }

  predicate Room(p: Pool, caps: Caps, c: nat) {
    c in p.conns && HasRoom(p.conns[c], CapOf(caps, c))
  }

  predicate Alive(p: Pool, caps: Caps, c: nat) {
    c in p.conns && !Gone(p.conns[c], CapOf(caps, c))
  }

  /** Nothing can be had: no listed connection has room, and one is coming up or there are as many as allowed. */
  ghost predicate Exhausted(p: Pool, o: nat, caps: Caps) {
    && o in p.origins
    && var x := p.origins[o];
       && (forall c :: c in x.connections ==> !Room(p, caps, c))
       && (|| (exists c :: c in x.connections && Alive(p, caps, c) && ComingUp(CapOf(caps, c)))
           || |set c | c in x.connections && Alive(p, caps, c)| >= x.maxConnections)
  }

  /** Place `i` is the first in the list with room. */
  predicate FirstRoom(p: Pool, list: seq<nat>, caps: Caps, i: int) {
    0 <= i < |list| && Room(p, caps, list[i]) && forall j :: 0 <= j < i ==> !Room(p, caps, list[j])
  }

  lemma FirstRoomLater(p: Pool, list: seq<nat>, caps: Caps, i: int)
    requires list != [] && !Room(p, caps, list[0]) && FirstRoom(p, list[1..], caps, i)
    ensures FirstRoom(p, list, caps, i + 1)
  {
    hide Room;
    forall j | 0 <= j < i + 1 ensures !Room(p, caps, list[j]) {
      if j > 0 {
        assert list[j] == list[1..][j - 1];
      }
    }
  }

  /** The scan's tests are the conditions above. */
  lemma TestsAre(p: Pool, caps: Caps, c: nat)
    requires c in p.conns
    ensures var k, cap := p.conns[c], CapOf(caps, c);
      && (IsUsable(k, cap) <==> Room(p, caps, c)) && (IsDead(k, cap) <==> !Alive(p, caps, c))
      && (IsStarting(cap) <==> ComingUp(cap)) && (IsUsable(k, cap) ==> !IsDead(k, cap))
  {
    hide CapOf;
  }

  lemma {:induction false} ScanFinds(p: Pool, list: seq<nat>, caps: Caps)
    requires forall c :: c in list ==> c in p.conns
    ensures var s := ScanFrom(p.conns, list, caps);
      && (s.found.None? <==> forall c :: c in list ==> !Room(p, caps, c))
      && (s.found.Some? ==> exists i :: FirstRoom(p, list, caps, i) && list[i] == s.found.value)
  {
    hide CapOf, IsUsable, IsDead, IsStarting, Room, Alive;
    if list != [] {
      var rest := list[1..];
      assert list == [list[0]] + rest;
      ScanFinds(p, rest, caps);
      TestsAre(p, caps, list[0]);
      var r := ScanFrom(p.conns, rest, caps);
      if Room(p, caps, list[0]) {
        assert FirstRoom(p, list, caps, 0);
      } else if r.found.Some? {
        var i :| FirstRoom(p, rest, caps, i) && rest[i] == r.found.value;
        FirstRoomLater(p, list, caps, i);
        assert list[i + 1] == rest[i];
      }
    }
  }

  lemma {:induction false} ScanKeeps(p: Pool, list: seq<nat>, caps: Caps)
    requires (forall c :: c in list ==> c in p.conns) && ScanFrom(p.conns, list, caps).found.None?
    ensures var s := ScanFrom(p.conns, list, caps);
      && (forall c :: c in s.kept <==> c in list && Alive(p, caps, c))
      && (s.starting <==> exists c :: c in list && Alive(p, caps, c) && ComingUp(CapOf(caps, c)))
  {
    hide CapOf, IsUsable, IsDead, IsStarting, Room, Alive, ComingUp;
    if list != [] {
      var rest := list[1..];
      assert list == [list[0]] + rest;
      TestsAre(p, caps, list[0]);
      ScanKeeps(p, rest, caps);
    }
  }

  function Members(q: seq<nat>): set<nat> {
    if q == [] then {} else {q[0]} + Members(q[1..])
  }

  lemma {:induction false} MembersAre(q: seq<nat>)
    ensures forall c :: c in Members(q) <==> c in q
  {
    if q != [] {
      MembersAre(q[1..]);
      MemberSplit(q);
    }
  }

  lemma {:induction false} NoDupCard(q: seq<nat>)
    requires NoDup(q)
    ensures |Members(q)| == |q|
  {
    hide NoDup;
    if q != [] {
      NoDupRest(q);
      NoDupCard(q[1..]);
      MembersAre(q[1..]);
    }
  }

  lemma MemberSplit(q: seq<nat>)
    requires q != []
    ensures forall c :: c in q <==> c == q[0] || c in q[1..]
  {
    assert q == [q[0]] + q[1..];
  }

  /**
   Nothing is chosen exactly when nothing can be had; otherwise the first in the list with room, or else a new
   one.
   */
  lemma SelectIff(p: Pool, o: nat, caps: Caps)
    requires Inv(p) && o in p.origins
    ensures Lists(p, o)
    ensures var r, list := Select(p, o, caps), p.origins[o].connections;
      && (r.conn.None? <==> Exhausted(p, o, caps))
      && (forall i :: FirstRoom(p, list, caps, i) ==> r.conn == Some(list[i]))
      && (r.conn.Some? && (forall c :: c in list ==> !Room(p, caps, c)) ==> IsNew(p, r.pool, o, r.conn.value))
  {
    hide Inv, ScanFrom, Room, Alive, ComingUp, NoDup;
    OriginFacts(p, o);
    ConnFacts(p);
    var list := p.origins[o].connections;
    ScanFacts(p.conns, list, caps);
    ScanFinds(p, list, caps);
    var s := ScanFrom(p.conns, list, caps);
    if s.found.None? {
      ScanKeeps(p, list, caps);
      KeptCard(p, list, s.kept, caps);
    } else {
      var k :| FirstRoom(p, list, caps, k) && list[k] == s.found.value;
      forall i | FirstRoom(p, list, caps, i) ensures list[i] == s.found.value {
        assert i == k;
      }
    }
  }

  lemma KeptCard(p: Pool, list: seq<nat>, kept: seq<nat>, caps: Caps)
    requires NoDup(kept) && forall c :: c in kept <==> c in list && Alive(p, caps, c)
    ensures |set c | c in list && Alive(p, caps, c)| == |kept|
  {
    hide Alive, NoDup;
    NoDupCard(kept);
    MembersAre(kept);
    assert Members(kept) == set c | c in list && Alive(p, caps, c);
  }

  /** `c` is a new connection of `o`, listed last, that nobody uses. */
  predicate IsNew(p: Pool, q: Pool, o: nat, c: nat) {
    && c !in p.conns && c in q.conns && q.conns[c] == Conn(o, 0, None)
    && o in q.origins && q.origins[o].connections != [] && q.origins[o].connections[|q.origins[o].connections| - 1] == c
  }

  /** After a choice that fails, nothing can be had from the list that is left either. */
  lemma StaysExhausted(p: Pool, o: nat, caps: Caps)
    requires Inv(p) && o in p.origins && Lists(p, o) && Select(p, o, caps).conn.None?
    ensures Exhausted(Select(p, o, caps).pool, o, caps)
  {
    hide Inv, ScanFrom, Room, Alive, ComingUp, NoDup;
    OriginFacts(p, o);
    var list := p.origins[o].connections;
    ScanFacts(p.conns, list, caps);
    ScanFinds(p, list, caps);
    ScanKeeps(p, list, caps);
    var s, q := ScanFrom(p.conns, list, caps), Select(p, o, caps).pool;
    SameRoom(p, q, caps);
    KeptCard(q, s.kept, s.kept, caps);
  }

  lemma SameRoom(p: Pool, q: Pool, caps: Caps)
    requires q.conns == p.conns
    ensures forall c :: (Room(q, caps, c) <==> Room(p, caps, c)) && (Alive(q, caps, c) <==> Alive(p, caps, c))
  {
  }

  // ---------------------------------------------------------------- refreshing

  /** `now` plus the timeout, cut off at the end of time; no timeout means never. */
  lemma DeadlineIs(now: Time, timeout: Time)
    ensures DeadlineAfter(now, timeout) == if timeout <= 0 then NEVER else Min(now + timeout, NEVER)
  {
  }

  predicate IsUp(p: Pool, caps: Caps, c: nat) {
    c in p.conns && CapOf(caps, c).connected && p.conns[c].connectedAt.Some?
  }

  lemma {:induction false} FirstUpIs(p: Pool, list: seq<nat>, caps: Caps, i: nat)
    requires forall c :: c in list ==> c in p.conns
    requires i <= |list| && (forall j :: 0 <= j < i ==> !IsUp(p, caps, list[j]))
    requires (i < |list| ==> IsUp(p, caps, list[i]))
    ensures FirstUp(p.conns, list, caps) == if i < |list| then Some(list[i]) else None
  {
    hide CapOf;
    if i > 0 {
      assert !IsUp(p, caps, list[0]);
      forall j | 0 <= j < i - 1 ensures !IsUp(p, caps, list[1..][j]) {
        assert list[1..][j] == list[j + 1];
      }
      FirstUpIs(p, list[1..], caps, i - 1);
    }
  }

  /**
   The first connection that is up stops the connect clock, or shows that it ran out; with none up, the clock is
   started once.
   */
  lemma RefreshMeans(p: Pool, k: Ticket, caps: Caps, now: Time, i: nat)
    requires Lists(p, k.origin)
    requires var list := p.origins[k.origin].connections;
      && i <= |list| && (forall j :: 0 <= j < i ==> !IsUp(p, caps, list[j])) && (i < |list| ==> IsUp(p, caps, list[i]))
    ensures var list, r := p.origins[k.origin].connections, Refreshed(p, k, caps, now);
      && (i < |list| && k.connectDeadline == NEVER ==> r == k)
      && (i < |list| && k.connectDeadline != NEVER && p.conns[list[i]].connectedAt.value > k.connectDeadline ==>
            r == k.(error := Some(TimedOut)))
      && (i < |list| && k.connectDeadline != NEVER && p.conns[list[i]].connectedAt.value <= k.connectDeadline ==>
            r == k.(connectDeadline := NEVER, expiry := k.queueDeadline))
      && (i == |list| && k.connectDeadline == NEVER && k.connectTimeout > 0 ==>
            r.connectDeadline == Min(now + k.connectTimeout, NEVER) && r.expiry ==
              Min(k.queueDeadline, r.connectDeadline))
      && (i == |list| && (k.connectDeadline != NEVER || k.connectTimeout <= 0) ==> r == k)
  {
    hide CapOf, FirstUp;
    FirstUpIs(p, p.origins[k.origin].connections, caps, i);
  }

  lemma {:induction false} RefreshAllIs(p: Pool, o: nat, list: seq<nat>, e: Env, t: nat)
    requires Inv(p) && Ready(p, o, list) && NoDup(list) && t in p.tickets && p.tickets[t].origin in p.origins
    requires Lists(p, p.tickets[t].origin)
    ensures t in RefreshAll(p, o, list, e).tickets && RefreshAll(p, o, list, e).tickets[t] ==
      if t in list then Refreshed(p, p.tickets[t], e.caps, e.refreshAt(t)) else p.tickets[t]
    decreases |list|
  {
    hide Inv, Refreshed, NoDup;
    if list != [] {
      NoDupRest(list);
      MemberSplit(list);
      RefreshInv(p, list[0], e);
      RefreshShape(p, list[0], e);
      var q := Refresh(p, list[0], e);
      RefreshAllIs(q, o, list[1..], e, t);
      SameRefresh(p, q, p.tickets[t], e.caps, e.refreshAt(t));
    }
  }

  lemma SameRefresh(p: Pool, q: Pool, k: Ticket, caps: Caps, now: Time)
    requires Lists(p, k.origin) && q.conns == p.conns && q.origins == p.origins
    ensures Lists(q, k.origin) && Refreshed(q, k, caps, now) == Refreshed(p, k, caps, now)
  {
  }

  // ---------------------------------------------------------------- draining

  /** What a drain does to a waiter it takes from the queue. */
  ghost predicate Verdict(stopping: bool, k: Ticket, r: Ticket, now: Time, caps: Caps) {
    if stopping then r == k.(status := Loose, error := Some(OperationAborted))
    else if k.error.Some? then r == k.(status := Loose)
    else if now >= k.expiry then r == k.(status := Loose, error := Some(TimedOut))
    else
      && r.status.Granted? && r == k.(status := r.status, assignedConnected := r.assignedConnected)
      && r.assignedConnected == CapOf(caps, r.status.conn).connected
  }

  /** The waiter has no reason to leave the queue but a connection. */
  predicate Serviceable(p: Pool, t: nat, now: Time) {
    !p.stopping && t in p.tickets && p.tickets[t].error.None? && now < p.tickets[t].expiry
  }

  /** One round: the front waiter leaves unless it is serviceable and nothing can be had. */
  lemma RoundExact(p: Pool, o: nat, t: nat, e: Env)
    requires Inv(p) && t in p.tickets && p.tickets[t].origin == o && p.tickets[t].status == Queued
    ensures Known(p, t) && Lists(p, o)
    ensures var r := DrainOne(p, o, t, e);
      && (!r.more <==> Serviceable(p, t, e.now(t)) && Exhausted(p, o, e.caps))
      && (!r.more ==> Exhausted(r.pool, o, e.caps))
      && (r.more ==> t in r.pool.tickets && Verdict(p.stopping, p.tickets[t], r.pool.tickets[t], e.now(t), e.caps))
  {
    hide Inv, Select, Unqueue, CapOf, Exhausted;
    TicketFacts(p, t);
    SelectInv(p, o, e.caps);
    SelectIff(p, o, e.caps);
    var s := Select(p, o, e.caps);
    if s.conn.None? {
      StaysExhausted(p, o, e.caps);
    }
    UnqueueShape(s.pool, t);
    UnqueueShape(p, t);
    UnqueueShape(SetTicket(p, t, p.tickets[t].(error := Some(OperationAborted))), t);
    UnqueueShape(SetTicket(p, t, p.tickets[t].(error := Some(TimedOut))), t);
    hide Without;
  }

  /** And it gets the first listed connection with room, or else a new one. */
  lemma GrantExact(p: Pool, o: nat, t: nat, e: Env)
    requires Inv(p) && t in p.tickets && p.tickets[t].origin == o && p.tickets[t].status == Queued
    requires Serviceable(p, t, e.now(t)) && !Exhausted(p, o, e.caps)
    ensures Known(p, t) && Lists(p, o)
    ensures var q, list := DrainOne(p, o, t, e).pool, p.origins[o].connections;
      && t in q.tickets && q.tickets[t].status.Granted?
      && (forall i :: FirstRoom(p, list, e.caps, i) ==> q.tickets[t].status == Granted(list[i]))
      && ((forall c :: c in list ==> !Room(p, e.caps, c)) ==> q.tickets[t].status.conn !in p.conns)
  {
    hide Inv, Select, Unqueue, CapOf, Exhausted, FirstRoom, Room;
    TicketFacts(p, t);
    SelectInv(p, o, e.caps);
    SelectIff(p, o, e.caps);
    UnqueueShape(Select(p, o, e.caps).pool, t);
    hide Without;
  }

  lemma {:induction false} DrainKeepsTicket(p: Pool, o: nat, list: seq<nat>, e: Env, t: nat)
    requires Inv(p) && o in p.origins && p.origins[o].waiters == list && t in p.tickets && t !in list
    ensures var q := DrainFrom(p, o, list, e).pool; t in q.tickets && q.tickets[t] == p.tickets[t]
    decreases |list|
  {
    hide Inv, DrainOne;
    if list != [] {
      MemberSplit(list);
      RoundReady(p, o, list, e);
      var r := DrainOne(p, o, list[0], e);
      if r.more {
        DrainKeepsTicket(r.pool, o, list[1..], e, t);
      }
    }
  }

  /** Every waiter that left the queue has its verdict; the first that stays is serviceable, and nothing can be had. */
  lemma {:induction false} DrainFromExact(p: Pool, o: nat, list: seq<nat>, e: Env, i: nat)
    requires Inv(p) && o in p.origins && p.origins[o].waiters == list && i < |list|
    ensures var d := DrainFrom(p, o, list, e);
      && list[i] in p.tickets && list[i] in d.pool.tickets
      && (i < d.served ==> Verdict(p.stopping, p.tickets[list[i]], d.pool.tickets[list[i]], e.now(list[i]), e.caps))
      && (i == d.served ==> Serviceable(p, list[i], e.now(list[i])) && Exhausted(d.pool, o, e.caps))
    decreases |list|
  {
    hide Inv, DrainOne, Verdict, Serviceable, Exhausted, NoDup;
    OriginFacts(p, o);
    NoDupRest(list);
    RoundReady(p, o, list, e);
    RoundExact(p, o, list[0], e);
    DrainFromServes(p, o, list, e);
    var r := DrainOne(p, o, list[0], e);
    if r.more {
      if i == 0 {
        DrainKeepsTicket(r.pool, o, list[1..], e, list[0]);
      } else {
        DrainFromExact(r.pool, o, list[1..], e, i - 1);
        Unchanged(p, r.pool, list[i], e.now(list[i]));
        assert list[1..][i - 1] == list[i];
      }
    }
  }

  lemma Unchanged(p: Pool, q: Pool, t: nat, now: Time)
    requires t in p.tickets && t in q.tickets && q.tickets[t] == p.tickets[t] && q.stopping == p.stopping
    ensures Serviceable(q, t, now) <==> Serviceable(p, t, now)
  {
  }

  /** A whole drain, on the waiters as the refresh leaves them. */
  lemma DrainExact(p: Pool, o: nat, e: Env, i: nat)
    requires Inv(p) && o in p.origins && i < |p.origins[o].waiters|
    ensures var d, t := Drain(p, o, e), p.origins[o].waiters[i];
      && t in p.tickets && Lists(p, p.tickets[t].origin) && t in d.pool.tickets
      && var k := Refreshed(p, p.tickets[t], e.caps, e.refreshAt(t));
         && (i < d.served ==> Verdict(p.stopping, k, d.pool.tickets[t], e.now(t), e.caps))
         && (i == d.served ==> !p.stopping && k.error.None? && e.now(t) < k.expiry && Exhausted(d.pool, o, e.caps))
  {
    hide Inv, DrainFrom, RefreshAll, Refreshed, Verdict, Exhausted;
    OriginFacts(p, o);
    var list := p.origins[o].waiters;
    assert list[i] in list;
    DrainReady(p, o, e);
    OriginFacts(p, p.tickets[list[i]].origin);
    RefreshAllIs(p, o, list, e, list[i]);
    DrainFromExact(RefreshAll(p, o, list, e), o, list, e, i);
  }

  // ---------------------------------------------------------------- acquiring

  /** The newcomer's own place and times, once it is queued. */
  ghost predicate QueuedLast(d: Pool, q: Pool, t: nat, r: nat, o: nat, connectTimeout: Time, e: Env) {
    && t in q.tickets && r in q.requests && r in d.requests && o in d.origins && o in q.origins
    && var k, x := q.tickets[t], q.origins[o];
       && k.status == Queued && k.origin == o && k.request == r && k.error.None? && k.connectTimeout == connectTimeout
       && x.waiters == d.origins[o].waiters + [t]
       && q.requests[r].queueDeadline.Some?
       && k.queueDeadline == Min(q.requests[r].deadline, q.requests[r].queueDeadline.value)
       && (d.requests[r].queueDeadline.Some? ==> q.requests[r] == d.requests[r])
       && (d.requests[r].queueDeadline.None? ==>
             q.requests[r].queueDeadline.value == DeadlineAfter(e.now(t), x.queueTimeout))
       && (k.connectDeadline == if connectTimeout <= 0 || (exists c :: c in x.connections && CapOf(e.caps, c).connected)
                                then NEVER else DeadlineAfter(e.refreshAt(t), connectTimeout))
  }

  lemma EnqueueExact(p: Pool, t: nat, r: nat, o: nat, connectTimeout: Time, e: Env)
    requires o in p.origins && r in p.requests
    ensures QueuedLast(p, Enqueue(p, t, r, o, connectTimeout, e), t, r, o, connectTimeout, e)
  {
    hide CapOf, DeadlineAfter;
  }

  /** The newcomer holds connection `c` outright. */
  ghost predicate LeasedNow(d: Pool, q: Pool, t: nat, o: nat, caps: Caps) {
    && t in q.tickets && q.tickets[t].status.Leased? && q.tickets[t].origin == o && o in d.origins
    && (forall i :: FirstRoom(d, d.origins[o].connections, caps, i) ==>
          q.tickets[t].status == Leased(d.origins[o].connections[i]))
    && ((forall c :: c in d.origins[o].connections ==> !Room(d, caps, c)) ==> q.tickets[t].status.conn !in d.conns)
  }

  lemma AdmitExact(d: Pool, t: nat, r: nat, o: nat, connectTimeout: Time, e: Env)
    requires Inv(d) && o in d.origins && Lists(d, o) && r in d.requests && t !in d.tickets
    ensures var q, free := Admit(d, t, r, o, connectTimeout, e), d.origins[o].waiters == [] && !Exhausted(d, o, e.caps);
      && (free ==> LeasedNow(d, q, t, o, e.caps))
      && (!free && |d.origins[o].waiters| < d.origins[o].maxQueued ==> QueuedLast(d, q, t, r, o, connectTimeout, e))
      && (!free && |d.origins[o].waiters| >= d.origins[o].maxQueued ==> t !in q.tickets)
  {
    hide Inv, Select, LeaseDirect, Enqueue, CapOf, Exhausted, FirstRoom, Room, DeadlineAfter;
    SelectInv(d, o, e.caps);
    SelectIff(d, o, e.caps);
    var s := if d.origins[o].waiters == [] then Select(d, o, e.caps) else Selected(d, None);
    if s.conn.Some? {
      LeaseShape(s.pool, t, r, o, s.conn.value, connectTimeout, CapOf(e.caps, s.conn.value).connected);
    } else if |s.pool.origins[o].waiters| < s.pool.origins[o].maxQueued {
      EnqueueExact(s.pool, t, r, o, connectTimeout, e);
    }
  }

  /**
   An acquisition is refused at once only when the pool stops or the deadline has passed. Otherwise, after a drain, it
   is a lease exactly when nobody waits and something can be had, else a place at the end of the queue, else a refusal.
   */
  lemma AcquireExact(p: Pool, t: nat, r: nat, o: nat, connectTimeout: Time, e: Env)
    requires Inv(p) && o in p.origins && r in p.requests && t !in p.tickets
    ensures var q, d := Acquired(p, t, r, o, connectTimeout, e), Drain(p, o, e).pool;
      && o in d.origins
      && var free := d.origins[o].waiters == [] && !Exhausted(d, o, e.caps);
         if p.stopping || e.now(t) >= p.requests[r].deadline then q == p
         else
           && (free ==> LeasedNow(d, q, t, o, e.caps))
           && (!free && |d.origins[o].waiters| < d.origins[o].maxQueued ==>
                 QueuedLast(d, q, t, r, o, connectTimeout, e))
           && (!free && |d.origins[o].waiters| >= d.origins[o].maxQueued ==> t !in q.tickets)
  {
    hide Inv, Drain, Admit, Exhausted, LeasedNow, QueuedLast;
    DrainReadyFor(p, o, e);
    AdmitExact(Drain(p, o, e).pool, t, r, o, connectTimeout, e);
  }

  // ---------------------------------------------------------------- waking up

  /** The waiter gives up: the pool stops, it is cancelled, it failed, or its time is over. */
  predicate GivesUp(p: Pool, k: Ticket, cancelled: bool, now: Time) {
    p.stopping || cancelled || k.error.Some? || now >= k.expiry
  }

  /** Its connection went down after it was granted. */
  predicate GrantLost(k: Ticket, caps: Caps) {
    k.status.Granted? && k.assignedConnected && !CapOf(caps, k.status.conn).connected
  }

  /** What becomes of a waiter that wakes up, with its times refreshed. */
  lemma WakeExact(p: Pool, t: nat, cancelled: bool, aborted: bool, late: bool, e: Env)
    requires Inv(p) && t in p.tickets && !p.tickets[t].status.Leased?
    ensures Known(p, t) && Lists(p, p.tickets[t].origin)
    ensures (InUse(p.tickets[t]) ==> p.tickets[t].status.conn in p.conns)
    ensures var q, o := Woken(p, t, cancelled, aborted, late, e), p.tickets[t].origin;
      var k := Refreshed(p, p.tickets[t], e.caps, e.refreshAt(t));
      var roomToWait := |p.origins[o].waiters| < p.origins[o].maxQueued;
      var quits := GivesUp(p, k, cancelled, e.now(t));
      && o in q.origins
      && (!quits && k.status.Granted? && !GrantLost(k, e.caps) && !late ==>
            t in q.tickets && q.tickets[t] == k.(status := Leased(k.status.conn)))
      && (!quits && GrantLost(k, e.caps) && roomToWait ==>
            && t in q.tickets && q.tickets[t].status == Queued && q.origins[o].waiters == p.origins[o].waiters + [t]
            && q.tickets[t].queueDeadline == k.queueDeadline
            && q.tickets[t].connectDeadline ==
               if k.connectDeadline == NEVER then DeadlineAfter(e.now(t), k.connectTimeout) else k.connectDeadline)
      && (!quits && !k.status.Granted? && aborted ==> t in q.tickets && q.tickets[t] == k && q.origins == p.origins)
      && (quits ==> t !in q.tickets)
      && (GrantLost(k, e.caps) && !roomToWait ==> t !in q.tickets)
      && (k.status.Granted? && !GrantLost(k, e.caps) && late ==> t !in q.tickets)
      && (!k.status.Granted? && !aborted ==> t !in q.tickets)
  {
    hide Inv, Refreshed, CapOf, DeadlineAfter, Without;
    Facts(p, t);
    OriginFacts(p, p.tickets[t].origin);
    RefreshShape(p, t, e);
    hide Leave;
    LeaveGone(Refresh(p, t, e), t);
    LeaveOrigins(Refresh(p, t, e), t);
  }

  lemma LeaveOrigins(p: Pool, t: nat)
    requires Known(p, t) && (InUse(p.tickets[t]) ==> p.tickets[t].status.conn in p.conns)
    ensures Leave(p, t).origins.Keys == p.origins.Keys
  {
    hide Without;
  }

  // ---------------------------------------------------------------- sweeping, noting, timers

  lemma {:induction false} KeptIff(conns: map<nat, Conn>, list: seq<nat>, idle: set<nat>)
    requires forall c :: c in list ==> c in conns
    ensures forall c :: c in Kept(conns, list, idle) <==> c in list && (conns[c].active != 0 || c !in idle)
  {
    if list != [] {
      MemberSplit(list);
      KeptIff(conns, list[1..], idle);
    }
  }

  /**
   A sweep drops exactly the idle, unused connections of mapped origins without waiters, and unmaps exactly the
   empty ones.
   */
  lemma SweepExact(p: Pool, idle: set<nat>, o: nat)
    requires Inv(p) && o in p.origins
    ensures AllLists(p)
    ensures var q := Swept(p, idle);
      && o in q.origins && q.origins[o].waiters == p.origins[o].waiters
      && (forall c :: c in p.origins[o].connections && c !in q.origins[o].connections <==>
            && c in p.origins[o].connections && o in p.managed && p.origins[o].waiters == []
            && p.conns[c].active == 0 && c in idle)
      && (forall c :: c in q.origins[o].connections ==> c in p.origins[o].connections)
      && (o in q.managed <==> o in p.managed && (q.origins[o].connections != [] || p.origins[o].waiters != []))
  {
    hide Inv, Kept;
    SweptInv(p, idle);
    KeptIff(p.conns, p.origins[o].connections, idle);
  }

  /** A connection is known to be up since the first report after the last time it was down. */
  lemma NotedExact(p: Pool, c: nat, connected: bool, now: Time, d: nat)
    requires c in p.conns && d in p.conns
    ensures var q := Noted(p, c, connected, now);
      && d in q.conns && (d != c ==> q.conns[d] == p.conns[d])
      && (d == c && !connected ==> q.conns[d].connectedAt == None)
      && (d == c && connected && p.conns[d].connectedAt.None? ==> q.conns[d].connectedAt == Some(now))
      && (d == c && connected && p.conns[d].connectedAt.Some? ==> q.conns[d] == p.conns[d])
  {
  }

  /** In every reachable state a waiter's timer is set to the earliest of its three deadlines. */
  lemma TimersAre(pools: seq<Pool>, events: seq<Event>, n: nat, t: nat)
    requires IsRun(pools, events) && n < |pools| && t in pools[n].tickets && Waits(pools[n].tickets[t])
    ensures var p, k := pools[n], pools[n].tickets[t];
      && k.request in p.requests && p.requests[k.request].queueDeadline.Some?
      && k.expiry == Min(k.connectDeadline, Min(p.requests[k.request].deadline,
        p.requests[k.request].queueDeadline.value))
  {
    hide Step, Enabled, Inv;
    RunInv(pools, events, n);
    TicketFacts(pools[n], t);
  }
}
