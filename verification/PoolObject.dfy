/**
 The scheduler as the pool object runs it: methods that update its maps, lists and
 counters in place. Each is proved to do what the corresponding operation on pool
 values does, so everything proved about runs of those holds for it.
 */
module PoolObject {
  import opened Base
  import opened HttpTypes
  import opened PoolScheduler
  import opened PoolRuns

  class ClientPool {
    var origins: map<nat, Origin>
    var managed: set<nat>
    var conns: map<nat, Conn>
    var tickets: map<nat, Ticket>
    var requests: map<nat, Request>
    var nextConn: nat
    var queuedRequests: int
    var stopping: bool
    var scheduled: set<nat>

    /** The value of the object. */
    function Abs(): Pool
      reads this
    {
      Pool(origins, managed, conns, tickets, requests, nextConn, queuedRequests, stopping, scheduled)
    }

    constructor ()
      ensures Abs() == Init() && Inv(Abs())
    {
      origins, managed, conns, tickets, requests := map[], {}, map[], map[], map[];
      nextConn, queuedRequests, stopping, scheduled := 0, 0, false, {};
      new;
      InitInv();
    }

    /** Takes a waiter out of the list of its origin, if it is there. */
    method RemoveWaiter(t: nat)
      requires Known(Abs(), t)
      modifies this
      ensures Abs() == Unqueue(old(Abs()), t)
    {
      var k := tickets[t];
      if k.status == Queued {
        var x := origins[k.origin];
        origins := origins[k.origin := x.(waiters := Without(x.waiters, t))];
        tickets := tickets[t := k.(status := Loose)];
        queuedRequests := queuedRequests - 1;
      }
    }

    /** Finds a connection with room, or opens one; dead ones are dropped on the way. */
    method SelectManaged(o: nat, caps: Caps) returns (found: Option<nat>)
      requires Lists(Abs(), o)
      modifies this
      ensures Abs() == Select(old(Abs()), o, caps).pool && found == Select(old(Abs()), o, caps).conn
    {
      var scan := ScanLoop(conns, origins[o].connections, caps);
      origins := origins[o := origins[o].(connections := scan.kept)];
      if scan.found.Some? {
        return scan.found;
      }
      if scan.starting || |origins[o].connections| >= origins[o].maxConnections {
        return None;
      }
      var c := nextConn;
      nextConn := nextConn + 1;
      conns := conns[c := Conn(o, 0, None)];
      ghost var before := old(origins)[o];
      origins := origins[o := origins[o].(connections := origins[o].connections + [c])];
      assert origins == old(origins)[o := before.(connections := scan.kept + [c])];
      found := Some(c);
    }

    method RefreshConnectDeadline(t: nat, e: Env)
      requires t in tickets && Lists(Abs(), tickets[t].origin)
      modifies this
      ensures Abs() == Refresh(old(Abs()), t, e)
    {
      var k := tickets[t];
      var up := FirstUp(conns, origins[k.origin].connections, e.caps);
      if up.Some? {
        if k.connectDeadline != NEVER {
          if conns[up.value].connectedAt.value > k.connectDeadline {
            k := k.(error := Some(TimedOut));
          } else {
            k := k.(connectDeadline := NEVER, expiry := k.queueDeadline);
          }
        }
      } else if k.connectDeadline == NEVER && k.connectTimeout > 0 {
        var d := DeadlineAfter(e.refreshAt(t), k.connectTimeout);
        k := k.(connectDeadline := d, expiry := Min(k.queueDeadline, d));
      }
      tickets := tickets[t := k];
    }

    /** One waiter of the drain: it fails, or is granted a connection, or has to wait on. */
    method ServeFront(o: nat, t: nat, e: Env) returns (more: bool)
      requires Lists(Abs(), o) && Known(Abs(), t)
      modifies this
      ensures Abs() == DrainOne(old(Abs()), o, t, e).pool && more == DrainOne(old(Abs()), o, t, e).more
    {
      hide Select, Unqueue, CapOf, Without;
      var k := tickets[t];
      if stopping {
        tickets := tickets[t := k.(error := Some(OperationAborted))];
      } else if k.error.None? && e.now(t) >= k.expiry {
        tickets := tickets[t := k.(error := Some(TimedOut))];
      } else if k.error.None? {
        var found := SelectManaged(o, e.caps);
        if found.None? {
          return false;
        }
        GrantReady(old(Abs()), o, t, e.caps);
        RemoveWaiter(t);
        GrantReadyAfter(old(Abs()), o, t, e.caps);
        var c := found.value;
        conns := conns[c := conns[c].(active := conns[c].active + 1)];
        tickets := tickets[t := tickets[t].(status := Granted(c), assignedConnected := CapOf(e.caps, c).connected)];
        return true;
      }
      RemoveWaiter(t);
      more := true;
    }

    /** Refreshes every waiter, then serves from the front as long as that is possible. */
    method DrainManaged(o: nat, e: Env)
      requires Inv(Abs()) && o in origins
      modifies this
      ensures Abs() == Drain(old(Abs()), o, e).pool && Inv(Abs())
    {
      hide Inv, DrainFrom, RefreshAll, Refresh, DrainOne;
      ghost var p := Abs();
      DrainReady(p, o, e);
      DrainServes(p, o, e);
      var list := origins[o].waiters;
      var i := 0;
      assert list[0..] == list;
      while i < |list|
        invariant i <= |list| && Ready(Abs(), o, list[i..])
        invariant RefreshAll(Abs(), o, list[i..], e) == RefreshAll(p, o, list, e)
      {
        RefreshedAlready(Abs(), o, list, i, e);
        RefreshConnectDeadline(list[i], e);
        i := i + 1;
      }
      RefreshNone(Abs(), o, list[i..], e);
      ghost var q := Abs();
      ServeAll(o, e);
      assert Abs() == DrainFrom(q, o, list, e).pool;
    }

    method ServeAll(o: nat, e: Env)
      requires Inv(Abs()) && o in origins
      modifies this
      ensures Abs() == DrainFrom(old(Abs()), o, old(origins[o].waiters), e).pool
    {
      hide Inv, DrainOne, RoundKept, DrainFrom;
      ghost var goal := DrainFrom(Abs(), o, origins[o].waiters, e).pool;
      while origins[o].waiters != []
        invariant Inv(Abs()) && o in origins && DrainFrom(Abs(), o, origins[o].waiters, e).pool == goal
        decreases |origins[o].waiters|
      {
        RoundReady(Abs(), o, origins[o].waiters, e);
        DrainUnfold(Abs(), o, origins[o].waiters, e);
        var more := ServeFront(o, origins[o].waiters[0], e);
        if !more {
          return;
        }
      }
      DrainNone(Abs(), o, e);
    }

    /** Posts a drain of the origin, once. */
    method ScheduleManaged(o: nat)
      modifies this
      ensures Abs() == Post(old(Abs()), o)
    {
      if o in scheduled || stopping {
        return;
      }
      scheduled := scheduled + {o};
    }

    method ReleaseManaged(t: nat)
      requires t in tickets && InUse(tickets[t]) && tickets[t].status.conn in conns
      modifies this
      ensures Abs() == TakeBack(old(Abs()), t)
    {
      var c := tickets[t].status.conn;
      conns := conns[c := conns[c].(active := conns[c].active - 1)];
      tickets := tickets[t := tickets[t].(status := Loose, assignedConnected := false)];
      ScheduleManaged(tickets[t].origin);
    }

    /** The posted drain. */
    method RunScheduled(o: nat, e: Env)
      requires Inv(Abs()) && o in origins
      modifies this
      ensures Inv(Unpost(old(Abs()), o)) && Abs() == Drain(Unpost(old(Abs()), o), o, e).pool && Inv(Abs())
    {
      hide Inv, Drain;
      UnpostInv(Abs(), o);
      scheduled := scheduled - {o};
      DrainManaged(o, e);
    }

    /** A client reports that its capacity has changed. */
    method OnCapacityChanged(c: nat, connected: bool, now: Time)
      requires c in conns
      modifies this
      ensures Abs() == Noted(old(Abs()), c, connected, now)
    {
      if !connected {
        conns := conns[c := conns[c].(connectedAt := None)];
      } else if conns[c].connectedAt.None? {
        conns := conns[c := conns[c].(connectedAt := Some(now))];
      } else {
        assert conns[c := conns[c]] == conns;
      }
      ScheduleManaged(conns[c].origin);
    }

    method PushWaiter(t: nat)
      requires Known(Abs(), t)
      modifies this
      ensures Abs() == Push(old(Abs()), t)
    {
      var k := tickets[t];
      var x := origins[k.origin];
      origins := origins[k.origin := x.(waiters := x.waiters + [t])];
      tickets := tickets[t := k.(status := Queued)];
      queuedRequests := queuedRequests + 1;
    }

    /** A grant on a connection that has gone down is queued again, or refused if the queue is full. */
    method RequeueGrant(t: nat, now: Time) returns (full: bool)
      requires Known(Abs(), t) && InUse(tickets[t]) && tickets[t].status.conn in conns
      modifies this
      ensures Abs() == Requeue(old(Abs()), t, now)
      ensures full <==> t !in tickets
    {
      hide DeadlineAfter;
      var k := tickets[t];
      ReleaseManaged(t);
      if |origins[k.origin].waiters| >= origins[k.origin].maxQueued {
        tickets := tickets - {t};
        return true;
      }
      var d := if k.connectDeadline == NEVER then DeadlineAfter(now, k.connectTimeout) else k.connectDeadline;
      tickets := tickets[t := tickets[t].(connectDeadline := d, expiry := Min(k.queueDeadline, d))];
      PushWaiter(t);
      full := false;
    }

    /** What goes when a waiter or a lease is destroyed. */
    method LeaveManaged(t: nat)
      requires Known(Abs(), t) && (InUse(tickets[t]) ==> tickets[t].status.conn in conns)
      modifies this
      ensures Abs() == Leave(old(Abs()), t)
    {
      hide Without;
      var o := tickets[t].origin;
      if InUse(tickets[t]) {
        ReleaseManaged(t);
      } else {
        RemoveWaiter(t);
      }
      tickets := tickets - {t};
      ScheduleManaged(o);
    }

    /** A request asks for a connection. */
    method AcquireManaged(t: nat, r: nat, o: nat, connectTimeout: Time, e: Env)
      requires Inv(Abs()) && o in origins && r in requests && t !in tickets
      modifies this
      ensures Abs() == Acquired(old(Abs()), t, r, o, connectTimeout, e) && Inv(Abs())
    {
      hide Inv, Drain, Select, LeaseDirect, Enqueue, CapOf;
      ghost var p := Abs();
      AcquiredInv(p, t, r, o, connectTimeout, e);
      if stopping || e.now(t) >= requests[r].deadline {
        return;
      }
      DrainReadyFor(p, o, e);
      DrainManaged(o, e);
      ghost var q := Abs();
      SelectInv(q, o, e.caps);
      if origins[o].waiters == [] {
        var found := SelectManaged(o, e.caps);
        if found.Some? {
          LeaseNow(t, r, o, found.value, connectTimeout, CapOf(e.caps, found.value).connected);
          return;
        }
      }
      if |origins[o].waiters| >= origins[o].maxQueued {
        return;
      }
      EnqueueNow(t, r, o, connectTimeout, e);
    }

    method LeaseNow(t: nat, r: nat, o: nat, c: nat, connectTimeout: Time, connected: bool)
      requires r in requests && c in conns
      modifies this
      ensures Abs() == LeaseDirect(old(Abs()), t, r, o, c, connectTimeout, connected)
    {
      var d := requests[r].deadline;
      conns := conns[c := conns[c].(active := conns[c].active + 1)];
      tickets := tickets[t := Ticket(o, r, Leased(c), d, NEVER, d, connectTimeout, None, connected)];
    }

    method EnqueueNow(t: nat, r: nat, o: nat, connectTimeout: Time, e: Env)
      requires o in origins && r in requests
      modifies this
      ensures Abs() == Enqueue(old(Abs()), t, r, o, connectTimeout, e)
    {
      hide DeadlineAfter, CapOf;
      if requests[r].queueDeadline.None? {
        var d := DeadlineAfter(e.now(t), origins[o].queueTimeout);
        requests := requests[r := requests[r].(queueDeadline := Some(d))];
      }
      tickets := tickets[t := NewWaiter(Abs(), r, o, connectTimeout, e.caps, e.refreshAt(t))];
      PushWaiter(t);
    }

    /** A waiter's timer wakes it. */
    method WakeWaiter(t: nat, cancelled: bool, aborted: bool, late: bool, e: Env)
      requires Inv(Abs()) && t in tickets && !tickets[t].status.Leased?
      modifies this
      ensures Known(old(Abs()), t) && Lists(old(Abs()), old(tickets[t].origin))
      ensures old(InUse(tickets[t])) ==> old(tickets[t].status.conn) in old(conns)
      ensures Abs() == Woken(old(Abs()), t, cancelled, aborted, late, e) && Inv(Abs())
    {
      hide Inv, Refresh, Leave, Requeue, CapOf;
      ghost var p := Abs();
      WokenInv(p, t, cancelled, aborted, late, e);
      RefreshShape(p, t, e);
      RefreshConnectDeadline(t, e);
      var k := tickets[t];
      if stopping || cancelled || k.error.Some? || e.now(t) >= k.expiry {
        LeaveManaged(t);
      } else if k.status.Granted? {
        if k.assignedConnected && !CapOf(e.caps, k.status.conn).connected {
          var full := RequeueGrant(t, e.now(t));
        } else if late {
          LeaveManaged(t);
        } else {
          tickets := tickets[t := k.(status := Leased(k.status.conn))];
        }
      } else if !aborted {
        LeaveManaged(t);
      }
    }
  }

  /** After selecting, the waiter is where it was. */
  lemma GrantReady(p: Pool, o: nat, t: nat, caps: Caps)
    requires Lists(p, o) && Known(p, t)
    ensures Known(Select(p, o, caps).pool, t)
  {
  }

  lemma GrantReadyAfter(p: Pool, o: nat, t: nat, caps: Caps)
    requires Lists(p, o) && Known(p, t) && Known(Select(p, o, caps).pool, t)
    ensures var q := Unqueue(Select(p, o, caps).pool, t); t in q.tickets && q.conns == Select(p, o, caps).pool.conns
  {
  }
}
