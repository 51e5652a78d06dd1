/** The idle scanner's intrusive doubly linked ring of connection entries. */
module IdleRing {

  class Socket {
    var open: bool

    constructor ()
      ensures open
    {
      open := true;
    }

    method Close()
      modifies this
      ensures !open
    {
      open := false;
    }
  }

  class Entry {
    var lastActiveMs: int
    var socket: Socket?
    var customTimeoutMs: int
    var prev: Entry?
    var next: Entry?

    constructor ()
      ensures prev == null && next == null && socket == null && lastActiveMs == 0 && customTimeoutMs == 0
    {
      lastActiveMs, socket, customTimeoutMs, prev, next := 0, null, 0, null, null;
    }

    method Touch(now: int)
      modifies this`lastActiveMs
      ensures lastActiveMs == now
    {
      lastActiveMs := now;
    }
  }

  /** `after` is `before` without `e`. */
  ghost predicate Lost(before: seq<Entry>, e: Entry, after: seq<Entry>) {
    exists k :: 0 <= k < |before| && before[k] == e && after == before[..k] + before[k + 1..]
  }

  lemma LostAt(before: seq<Entry>, k: nat, after: seq<Entry>)
    requires k < |before| && after == before[..k] + before[k + 1..]
    ensures Lost(before, before[k], after)
  {
  }

  class Scanner {
    const sentinel: Entry
    const timeoutMs: int
    var count: nat
    ghost var ring: seq<Entry>

    /** The nodes in order, with the sentinel before the first and after the last. */
    ghost function At(i: int): Entry
      reads this`ring
    {
      if 1 <= i <= |ring| then ring[i - 1] else sentinel
    }

    ghost predicate Distinct()
      reads this`ring
    {
      sentinel !in ring && forall i, j :: 0 <= i < j < |ring| ==> ring[i] != ring[j]
    }

    /** Node `i` and the node after it point to each other. */
    ghost predicate Joint(i: int)
      reads this`ring, sentinel, ring
    {
      At(i).next == At(i + 1) && At(i + 1).prev == At(i)
    }

    ghost predicate Linked()
      reads this`ring, sentinel, ring
    {
      forall i :: 0 <= i <= |ring| ==> Joint(i)
    }

    ghost predicate Valid()
      reads this, sentinel, ring
    {
      Distinct() && Linked() && count == |ring|
    }

    constructor (timeoutMs: int)
      ensures Valid() && ring == [] && fresh(sentinel) && this.timeoutMs == timeoutMs
    {
      var s := new Entry();
      s.prev, s.next := s, s;
      sentinel := s;
      this.timeoutMs := timeoutMs;
      count, ring := 0, [];
    }

    /** Puts an entry at the front. */
    method Register(e: Entry)
      requires Valid() && e != sentinel && e !in ring
      modifies this`count, this`ring, e`prev, e`next, sentinel`next, sentinel`prev, ring`prev
      ensures Valid() && ring == [e] + old(ring)
    {
      assert Joint(0);
      e.next := sentinel.next;
      e.prev := sentinel;
      sentinel.next.prev := e;
      sentinel.next := e;
      count := count + 1;
      ring := [e] + ring;
      forall i | 0 <= i <= |ring| ensures Joint(i) {
        if i >= 2 {
          assert old(Joint(i - 1));
        }
      }
    }

    /** Takes an entry out, wherever it is. */
    method Unregister(e: Entry)
      requires Valid() && e in ring
      modifies this`count, this`ring, sentinel`next, sentinel`prev, ring`prev, ring`next
      ensures Valid() && e !in ring && e.prev == null && e.next == null
      ensures Lost(old(ring), e, ring)
    {
      hide Lost, Linked, Distinct;
      ghost var k :| 0 <= k < |ring| && ring[k] == e;
      UnregisterAt(e, k);
      LostAt(old(ring), k, ring);
    }

    method UnregisterAt(e: Entry, ghost k: nat)
      requires Valid() && k < |ring| && ring[k] == e
      modifies this`count, this`ring, sentinel`next, sentinel`prev, ring`prev, ring`next
      ensures Valid() && ring == old(ring)[..k] + old(ring)[k + 1..] && e !in ring && e.prev == null && e.next == null
    {
      assert Joint(k) && Joint(k + 1) && At(k + 1) == e;
      e.prev.next := e.next;
      e.next.prev := e.prev;
      e.prev := null;
      e.next := null;
      count := count - 1;
      ring := ring[..k] + ring[k + 1..];
      forall i | 0 <= i <= |ring| ensures Joint(i) {
        assert old(Joint(i)) && old(Joint(i + 1));
      }
    }

    predicate Expired(e: Entry, now: int)
      reads e
    {
      now - e.lastActiveMs >= (if e.customTimeoutMs > 0 then e.customTimeoutMs else timeoutMs) && e.socket != null
    }

    /** The last activity is at least the entry's own timeout ago, or the scanner's if it has none. */
    ghost predicate Overdue(e: Entry, now: int)
      reads e
    {
      || (e.customTimeoutMs > 0 && e.lastActiveMs + e.customTimeoutMs <= now)
      || (e.customTimeoutMs <= 0 && e.lastActiveMs + timeoutMs <= now)
    }

    ghost function Sockets(): set<Socket>
      reads this`ring, ring
    {
      set i | 0 <= i < |ring| && ring[i].socket != null :: ring[i].socket
    }

    /** The sockets of the expired entries. */
    ghost function Doomed(now: int): set<Socket>
      reads this`ring, ring
    {
      set i | 0 <= i < |ring| && Expired(ring[i], now) :: ring[i].socket
    }

    /** One scan: follows the links once around, and closes the sockets of the expired entries and no others. */
    method Scan(now: int) returns (visited: seq<Entry>)
      requires Valid()
      modifies Doomed(now)
      ensures Valid() && visited == ring
      ensures forall i :: 0 <= i < |ring| && ring[i].socket != null && Overdue(ring[i], now) ==> !ring[i].socket.open
      ensures forall s: Socket :: allocated(s) && !s.open && old(allocated(s) && s.open) ==>
        exists i :: 0 <= i < |ring| && ring[i].socket == s && Overdue(ring[i], now)
    {
      assert Joint(0);
      visited := [];
      var curr := sentinel.next;
      while curr != sentinel
        invariant |visited| <= |ring| && visited == ring[..|visited|] && curr == At(|visited| + 1)
        invariant forall i :: 0 <= i < |visited| && Expired(ring[i], now) ==> !ring[i].socket.open
        decreases |ring| - |visited|
      {
        ghost var k := |visited|;
        assert Joint(k + 1) && curr == ring[k];
        var next := curr.next;
        if Expired(curr, now) {
          assert curr.socket in Doomed(now);
          curr.socket.Close();
        }
        visited := visited + [curr];
        curr := next;
      }
    }

    /** Closes every open socket of the ring. */
    method CloseAll() returns (visited: seq<Entry>)
      requires Valid()
      modifies Sockets()
      ensures Valid() && visited == ring
      ensures forall i :: 0 <= i < |ring| && ring[i].socket != null ==> !ring[i].socket.open
    {
      assert Joint(0);
      visited := [];
      var curr := sentinel.next;
      while curr != sentinel
        invariant |visited| <= |ring| && visited == ring[..|visited|] && curr == At(|visited| + 1)
        invariant forall i :: 0 <= i < |visited| && ring[i].socket != null ==> !ring[i].socket.open
        decreases |ring| - |visited|
      {
        ghost var k := |visited|;
        assert Joint(k + 1) && curr == ring[k];
        var next := curr.next;
        if curr.socket != null && curr.socket.open {
          assert curr.socket in Sockets();
          curr.socket.Close();
        }
        visited := visited + [curr];
        curr := next;
      }
    }
  }

  /** Registers an entry for its lifetime; a null scanner means that there is nothing to do, or nothing left to do. */
  class Guard {
    var scanner: Scanner?
    const entry: Entry

    ghost predicate Holding()
      reads this, scanner, if scanner != null then {scanner.sentinel} + (set x | x in scanner.ring) else {}
    {
      scanner != null ==> scanner.Valid() && entry in scanner.ring
    }

    constructor (scanner: Scanner?, entry: Entry)
      requires scanner != null ==> scanner.Valid() && entry != scanner.sentinel && entry !in scanner.ring
      modifies scanner, entry, if scanner != null then {scanner.sentinel} + (set x | x in scanner.ring) else {}
      ensures Holding() && this.scanner == scanner && this.entry == entry
      ensures scanner != null ==> scanner.ring == [entry] + old(scanner.ring)
    {
      this.scanner, this.entry := scanner, entry;
      new;
      if scanner != null {
        scanner.Register(entry);
      }
    }

    /** Takes the entry out early; a second call does nothing. */
    method Release()
      requires Holding()
      modifies this`scanner, scanner, if scanner != null then {scanner.sentinel} + (set x | x in scanner.ring) else {}
      ensures Holding() && scanner == null
      ensures old(scanner) != null ==>
        old(scanner).Valid() && entry !in old(scanner).ring && Lost(old(scanner.ring), entry, old(scanner).ring)
    {
      if scanner != null {
        scanner.Unregister(entry);
        scanner := null;
      }
    }

    /** The destructor: takes the entry out unless that was done before. */
    method Destroy()
      requires Holding()
      modifies scanner, if scanner != null then {scanner.sentinel} + (set x | x in scanner.ring) else {}
      ensures scanner != null ==>
        scanner.Valid() && entry !in scanner.ring && Lost(old(scanner.ring), entry, scanner.ring)
    {
      if scanner != null {
        scanner.Unregister(entry);
      }
    }
  }

  /** Releasing early and then destroying unregisters once: the ring is as it was before the guard. */
  method GuardedLifetime(scanner: Scanner, entry: Entry)
    requires scanner.Valid() && entry != scanner.sentinel && entry !in scanner.ring
    modifies scanner, entry, scanner.sentinel, set x | x in scanner.ring
    ensures scanner.Valid() && scanner.ring == old(scanner.ring)
  {
    var guard := new Guard(scanner, entry);
    guard.Release();
    guard.Release();
    guard.Destroy();
  }
}
