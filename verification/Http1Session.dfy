/**
 The HTTP/1 pipelined session: reading heads and bodies from a stream that arrives in
 arbitrary pieces, carrying left-over bytes to the next request, and answering through
 a mix of batched, direct and partial writes.

 How many bytes a read or an optimistic write moves is an arbitrary choice (`:|`, `*`);
 everything else is determined by the bytes, the library and the application.
 */
module Http1Session {
  import opened Base
  import opened Http1Reference

  const MAX_BATCH := 65536
  const FILE_CHUNK := 65536
  const FIRST_READ := 256
  const CHUNK_READ := 4096

  datatype HeadResult = Parsed | Refused(why: Refusal) | Lost

  /**
   How a session ends: the peer is gone, a refusal before or after a whole head, a hand-over of the socket, or an
   answer that closes.
   */
  datatype Ending = PeerGone | Turned(why: Refusal) | Rejected | HandedOver | Closed

  /** The state of the stream that calls for each ending; `rest` is what the answered requests leave. */
  predicate EndsAs(w: World, rest: Bytes, xs: seq<Exchange>, e: Ending) {
    var h := w.lib.parse(rest);
    match e
    case PeerGone => Goes(w, xs) && h == -2
    case Turned(BadRequest) => Goes(w, xs) && h == -1
    case Turned(HeadTooLarge) => Goes(w, xs) && (h > w.maxHeader || (h == -2 && |rest| >= w.maxHeader))
    case Rejected => Goes(w, xs) && 0 < h <= |rest| && w.lib.head(rest[..h]).reject.Some?
    case HandedOver =>
      Goes(w, xs) && 0 < h <= |rest| && w.lib.head(rest[..h]).reject.None? && w.lib.head(rest[..h]).takeover
    case Closed => !Goes(w, xs)
  }

  /** What is sent last. */
  function LastReply(w: World, rest: Bytes, e: Ending): Bytes {
    match e
    case Turned(why) => w.app.refusal(why)
    case Rejected =>
      var h := w.lib.parse(rest);
      if 0 < h <= |rest| && w.lib.head(rest[..h]).reject.Some? then w.lib.head(rest[..h]).reject.value else []
    case _ => []
  }

  /** The exchanges are what the application makes of the stream, and `rest` is what they leave of it. */
  ghost predicate Stands(w: World, s: Bytes, xs: seq<Exchange>, rest: Bytes) {
    Reach(w, s, xs).Some? && rest == s[Reach(w, s, xs).value..]
  }

  lemma StandsMore(w: World, s: Bytes, xs: seq<Exchange>, rest: Bytes, x: Bytes)
    requires Obeys(w.lib) && Stands(w, s, xs, rest)
    ensures Stands(w, s + x, xs, rest + x)
  {
    hide Obeys, Reach;
    ReachMore(w, s, xs, x);
    assert (s + x)[Reach(w, s, xs).value..] == rest + x;
  }

  lemma StandsNext(w: World, s: Bytes, xs: seq<Exchange>, rest: Bytes, x: Exchange, left: Bytes)
    requires Stands(w, s, xs, rest) && Goes(w, xs) && Legal(w, |xs|, rest, x)
    requires Advance(w, rest, x.outcome) <= |rest| && left == rest[Advance(w, rest, x.outcome)..]
    ensures Stands(w, s, xs + [x], left)
  {
    hide Reach, Legal, Advance, Goes;
    ReachNext(w, s, xs, x);
  }

  /** The outcome of reading the body of request `i` at the front of `s`, and what it leaves. */
  ghost predicate Leads(w: World, i: nat, s: Bytes, h: nat, o: Outcome, left: Bytes) {
    h <= |s| && OutcomeOk(w, i, s, h, o) && Advance(w, s, o) <= |s| && left == s[Advance(w, s, o)..]
  }

  lemma UntouchedLeads(w: World, i: nat, buf: Bytes, h: nat)
    requires h <= |buf| && !w.app.takesBody(i, buf[..h])
    ensures Leads(w, i, buf, h, Untouched, buf) && !Interim(w, i, buf[..h])
  {
  }

  lemma LeadsLegal(w: World, i: nat, buf: Bytes, more: Bytes, h: nat, o: Outcome, left: Bytes)
    requires Obeys(w.lib) && Answerable(w.lib, buf) && h == w.lib.parse(buf) && Leads(w, i, buf + more, h, o, left)
    ensures var s, x := buf + more, Answered(w, i, buf[..h], o);
      Legal(w, i, s, x) && Advance(w, s, o) <= |s| && left == s[Advance(w, s, o)..]
  {
    hide Obeys, OutcomeOk, Advance;
    ParseStable(w.lib, buf, more);
    assert (buf + more)[..h] == buf[..h];
  }

  /** A body that is not asked for, or announced as too large, leaves everything in place. */
  lemma StillThere(w: World, i: nat, s: Bytes, h: nat, o: Outcome, left: Bytes)
    requires Leads(w, i, s, h, o, left)
    ensures !w.app.takesBody(i, s[..h]) ==> left == s
    ensures w.app.takesBody(i, s[..h]) && OverLimit(w, s[..h]) ==> o == Announced && left == s
  {
    hide Readable, Flawed, OverLimit, Take;
  }

  /** What a body that was read, or not, means for the whole stream. */
  lemma Landed(w: World, was: Bytes, more: Bytes, xs: seq<Exchange>, buf: Bytes, h: nat, o: Outcome, left: Bytes)
    requires Obeys(w.lib) && Stands(w, was, xs, buf) && Goes(w, xs) && Answerable(w.lib, buf) && h == w.lib.parse(buf)
    requires Leads(w, |xs|, buf + more, h, o, left)
    requires o.Broken? ==> o.size == |buf + more|
    ensures var x := Answered(w, |xs|, buf[..h], o);
      && Stands(w, was + more, xs, buf + more) && Handled(w, |xs|, buf + more, x, left)
      && Stands(w, was + more, xs + [x], left) && (Goes(w, xs + [x]) <==> Continues(w, |xs|, buf[..h]))
    ensures !w.app.takesBody(|xs|, buf[..h]) ==> left == buf + more
    ensures w.app.takesBody(|xs|, buf[..h]) && OverLimit(w, buf[..h]) ==> o == Announced && left == buf + more
  {
    hide Obeys, Stands, Leads, Answered, OutcomeOk, Advance, Legal, Continues;
    var s, x := buf + more, Answered(w, |xs|, buf[..h], o);
    StandsMore(w, was, xs, buf, more);
    LeadsLegal(w, |xs|, buf, more, h, o, left);
    StandsNext(w, was + more, xs, s, x, left);
    assert s[..h] == buf[..h];
    StillThere(w, |xs|, s, h, o, left);
  }

  lemma AnnouncedLeads(w: World, i: nat, buf: Bytes, h: nat)
    requires 0 < h == w.lib.parse(buf) <= |buf| && w.app.takesBody(i, buf[..h]) && OverLimit(w, buf[..h])
    ensures Leads(w, i, buf, h, Announced, buf)
  {
  }

  lemma NoneLeads(w: World, i: nat, buf: Bytes, h: nat, left: Bytes)
    requires 0 < h == w.lib.parse(buf) <= |buf| && w.app.takesBody(i, buf[..h]) && left == buf[h..]
    requires w.lib.head(buf[..h]).framing == NoBody || w.lib.head(buf[..h]).framing == Length(0)
    ensures Leads(w, i, buf, h, Complete([]), left)
  {
  }

  lemma LengthLeads(w: World, i: nat, buf: Bytes, h: nat, more: Bytes, body: Bytes, left: Bytes)
    requires Obeys(w.lib) && 0 < h == w.lib.parse(buf) <= |buf| && w.app.takesBody(i, buf[..h])
    requires w.lib.head(buf[..h]).framing.Length? && !OverLimit(w, buf[..h])
    requires var s, n := buf + more, w.lib.head(buf[..h]).framing.n;
      h + n <= |s| && body == s[h..h + n] && left == s[h + n..]
    ensures Leads(w, i, buf + more, h, Complete(body), left)
  {
    hide Obeys;
    ParseStable(w.lib, buf, more);
    assert (buf + more)[..h] == buf[..h];
  }

  lemma LengthBreaks(w: World, i: nat, buf: Bytes, h: nat, more: Bytes)
    requires h <= |buf| && w.app.takesBody(i, buf[..h]) && !OverLimit(w, buf[..h])
    requires w.lib.head(buf[..h]).framing.Length? && |buf + more| < h + w.lib.head(buf[..h]).framing.n
    ensures Leads(w, i, buf + more, h, Broken(|buf + more|, Truncated), [])
  {
    var s := buf + more;
    assert s[..h] == buf[..h] && s[..|s|] == s;
  }

  lemma ChunkedLeads(w: World, i: nat, buf: Bytes, h: nat, more: Bytes, body: Bytes, left: Bytes)
    requires Obeys(w.lib) && 0 < h == w.lib.parse(buf) <= |buf| && w.app.takesBody(i, buf[..h])
    requires w.lib.head(buf[..h]).framing == Chunked && |body| <= w.maxBody
    requires var s := buf[h..] + more; var f := w.lib.feed(0, s);
      0 <= f.ret <= |s| && f.out == body && left == s[|s| - f.ret..]
    ensures Leads(w, i, buf + more, h, Complete(body), left)
  {
    hide Obeys;
    ParseStable(w.lib, buf, more);
    assert (buf + more)[..h] == buf[..h] && (buf + more)[h..] == buf[h..] + more;
  }

  lemma ChunkedBreaks(w: World, i: nat, buf: Bytes, h: nat, more: Bytes, flaw: Flaw)
    requires h <= |buf| && w.app.takesBody(i, buf[..h]) && w.lib.head(buf[..h]).framing == Chunked
    requires var f := w.lib.feed(0, buf[h..] + more);
      match flaw
      case Oversize => |f.out| > w.maxBody
      case Malformed => |f.out| <= w.maxBody && f.ret == -1
      case Truncated => |f.out| <= w.maxBody && f.ret == -2
    ensures Leads(w, i, buf + more, h, Broken(|buf + more|, flaw), [])
  {
    var s := buf + more;
    assert s[..h] == buf[..h] && s[h..] == buf[h..] + more && s[..|s|] == s;
  }

  /** The body of request `i` cannot be read from all that was received. */
  ghost predicate Unreadable(w: World, s: Bytes, xs: seq<Exchange>, i: nat)
    requires i < |xs|
  {
    Reach(w, s, xs[..i]).Some? && !Readable(w, s[Reach(w, s, xs[..i]).value..])
  }

  /** No request comes from nothing, and a body that is cut off leaves nothing. */
  lemma NothingAtEnd(w: World, i: nat, rest: Bytes, x: Exchange, left: Bytes)
    requires Obeys(w.lib) && Handled(w, i, rest, x, left)
    ensures rest != [] && (CutOff(x.outcome) ==> left == [])
  {
    hide Obeys;
    EmptyIsIncomplete(w.lib);
  }

  /** The chunked body in the first `b` bytes of `s` is neither complete nor flawed. */
  predicate StillOpen(w: World, s: Bytes, h: nat, b: nat)
    requires h <= b <= |s|
  {
    var f := w.lib.feed(0, s[h..b]);
    f.ret == -2 && |f.out| <= w.maxBody
  }

  /** A flaw is noticed with the read that brings it; `n` bytes were there when the head was complete. */
  ghost predicate FlawInTime(w: World, s: Bytes, h: nat, n: nat, o: Outcome) {
    o.Broken? && !CutOff(o) ==> |s| == n || exists b :: h <= b <= |s| <= b + CHUNK_READ && StillOpen(w, s, h, b)
  }

  lemma FedInTime(w: World, buf: Bytes, more: Bytes, h: nat, fed: nat)
    requires h <= |buf|
    requires var s := buf[h..] + more;
      && fed <= |s| && (|s| <= fed + CHUNK_READ || more == [])
      && w.lib.feed(0, s[..fed]).ret == -2 && |w.lib.feed(0, s[..fed]).out| <= w.maxBody
    ensures var s := buf + more;
      |s| == |buf| || (h <= h + fed <= |s| <= h + fed + CHUNK_READ && StillOpen(w, s, h, h + fed))
  {
    var s := buf + more;
    assert s[h..h + fed] == (buf[h..] + more)[..fed];
  }

  /** More than a first read is taken only for a head that is not complete in it. */
  ghost predicate HeadInTime(lib: Library, spill: Bytes, s: Bytes, n: nat) {
    spill == [] ==> n <= FIRST_READ || exists k :: 0 < k <= FIRST_READ && k <= |s| && lib.parse(s[..k]) <= 0
  }

  /** No more was read for this request than it took to decide on it. */
  ghost predicate InTime(w: World, spill: Bytes, s: Bytes, x: Exchange) {
    exists n :: |x.head| <= n <= |s| && HeadInTime(w.lib, spill, s, n) && FlawInTime(w, s, |x.head|, n, x.outcome)
  }

  lemma HeadInTimeMore(lib: Library, spill: Bytes, buf: Bytes, more: Bytes)
    requires HeadInTime(lib, spill, buf, |buf|)
    ensures HeadInTime(lib, spill, buf + more, |buf|)
  {
    if spill == [] && |buf| > FIRST_READ {
      var k :| 0 < k <= FIRST_READ && k <= |buf| && lib.parse(buf[..k]) <= 0;
      assert (buf + more)[..k] == buf[..k];
    }
  }

  lemma DecidedInTime(w: World, spill: Bytes, buf: Bytes, more: Bytes, x: Exchange)
    requires |x.head| <= |buf| && HeadInTime(w.lib, spill, buf, |buf|)
    requires FlawInTime(w, buf + more, |x.head|, |buf|, x.outcome)
    ensures InTime(w, spill, buf + more, x)
  {
    hide FlawInTime;
    HeadInTimeMore(w.lib, spill, buf, more);
  }

  lemma Settles(w: World, i: nat, buf: Bytes, more: Bytes, x: Exchange, left: Bytes, spill: Bytes)
    requires Handled(w, i, buf + more, x, left) && x.head == HeadOf(w.lib, buf) && HeadInTime(w.lib, spill, buf, |buf|)
    requires FlawInTime(w, buf + more, |x.head|, |buf|, x.outcome)
    ensures InTime(w, spill, buf + more, x)
    ensures left == buf + more <==> !w.app.takesBody(i, x.head) || OverLimit(w, x.head)
    ensures var s := buf + more;
      FollowsFirst(w.lib, s, left) <==>
      && w.app.takesBody(i, x.head) && !OverLimit(w, x.head) && Take(w.lib, s).Some?
      && (|Take(w.lib, s).value.body| <= w.maxBody || Take(w.lib, s).value.size == |s|)
  {
    hide Handled, FollowsFirst, OverLimit, Take, InTime, FlawInTime, HeadInTime;
    StaysIff(w, i, buf + more, x, left);
    ContinuesIff(w, i, buf + more, x, left);
    DecidedInTime(w, spill, buf, more, x);
  }

  // ---------------------------------------------------------------- the session

  class Session {
    const w: World
    var incoming: Bytes      // what the peer has yet to send
    var sent: Bytes          // what the socket has taken
    var batch: Bytes
    var spill: Bytes
    var handled: nat         // numbers the requests for the application
    ghost var received: Bytes
    ghost var log: seq<Exchange>

    constructor (w: World, incoming: Bytes)
      requires Obeys(w.lib)
      ensures this.w == w && this.incoming == incoming && sent == batch == spill == received == [] && log == []
      ensures Sound()
    {
      this.w, this.incoming := w, incoming;
      sent, batch, spill, handled, received, log := [], [], [], 0, [], [];
    }

    // -------------------------------------------------------------- writing

    method Write(b: Bytes)
      modifies this`sent
      ensures sent == old(sent) + b
    {
      sent := sent + b;
    }

    /** Writes some prefix at once; nothing on an error or over TLS. */
    method TryWrite(b: Bytes) returns (done: bool, written: nat)
      modifies this`sent
      ensures written <= |b| && sent == old(sent) + b[..written]
      ensures done ==> written == |b|
    {
      var n: nat, failed: bool := *, *;
      if failed || n > |b| {
        return false, 0;
      }
      sent := sent + b[..n];
      return n == |b|, n;
    }

    /** Sends one buffer: an optimistic write, then the rest from where it stopped. */
    method Send(b: Bytes)
      modifies this`sent
      ensures sent == old(sent) + b
    {
      var done, written := TryWrite(b);
      if !done {
        assert b[..written] + b[written..] == b;
        Write(b[written..]);
      }
    }

    /** Sends two buffers; the optimistic write may stop in either. */
    method SendTwo(head: Bytes, body: Bytes)
      modifies this`sent
      ensures sent == old(sent) + head + body
    {
      var done, written := TryWrite(head + body);
      assert old(sent) + (head + body) == old(sent) + head + body;
      if !done {
        assert (head + body)[..written] + (head + body)[written..] == head + body;
        if written < |head| {
          assert (head + body)[written..] == head[written..] + body;
          Write(head[written..] + body);
        } else {
          assert (head + body)[written..] == body[written - |head|..];
          Write(body[written - |head|..]);
        }
      }
    }

    method Flush()
      modifies this`sent, this`batch
      ensures batch == [] && sent == old(sent) + old(batch)
    {
      if batch != [] {
        Send(batch);
        batch := [];
      }
    }

    method WriteResponse(r: Response, skipBody: bool)
      modifies this`sent
      ensures sent == old(sent) + Wire(r, skipBody)
    {
      assert old(sent) + (r.head + r.body) == old(sent) + r.head + r.body;
      if r.kind == Streamed {
        if !skipBody && r.body != [] {
          Write(r.head + r.body);
        } else {
          Send(r.head);
        }
      } else if skipBody || r.body == [] {
        Send(r.head);
      } else if |r.head| + |r.body| <= 512 {
        Send(r.head + r.body);
      } else {
        SendTwo(r.head, r.body);
      }
    }

    /** The head, then the contents piece by piece; `r.body` is what can be read of the file. */
    method WriteFile(r: Response)
      modifies this`sent
      ensures sent == old(sent) + Wire(r, false)
    {
      Write(r.head);
      var offset := 0;
      while offset < |r.body|
        invariant offset <= |r.body|
        invariant sent == old(sent) + r.head + r.body[..offset]
      {
        var n :| 0 < n <= FILE_CHUNK && offset + n <= |r.body|;
        assert r.body[..offset] + r.body[offset..offset + n] == r.body[..offset + n];
        Write(r.body[offset..offset + n]);
        offset := offset + n;
      }
      assert r.body[..offset] == r.body;
    }

    /** Sends or batches one answer, so that answers leave in order. */
    method Deliver(r: Response, isHead: bool, keepAlive: bool, bufUsed: nat)
      requires |batch| < MAX_BATCH
      modifies this`sent, this`batch
      ensures sent + batch == old(sent + batch) + Wire(r, isHead)
      ensures |batch| < MAX_BATCH && (!keepAlive ==> batch == [])
    {
      if !keepAlive {
        Flush();
        if r.kind == File && !isHead {
          WriteFile(r);
        } else {
          WriteResponse(r, isHead);
        }
      } else if r.kind != Plain {
        Flush();
        if r.kind == File && !isHead {
          WriteFile(r);
        } else {
          WriteResponse(r, isHead);
        }
      } else if |r.body| >= MAX_BATCH {
        Flush();
        WriteResponse(r, isHead);
      } else if batch == [] && bufUsed == 0 {
        WriteResponse(r, isHead);
      } else {
        batch := batch + r.head + if isHead then [] else r.body;
        assert sent + batch == old(sent + batch) + Wire(r, isHead);
        if |batch| >= MAX_BATCH {
          Flush();
        }
      }
    }

    // -------------------------------------------------------------- reading

    /** A blocking read: never with answers held back. It gives nothing only when the peer is gone. */
    method Read(max: nat) returns (b: Bytes)
      requires batch == [] && max > 0
      modifies this`incoming, this`received
      ensures |b| <= max && received == old(received) + b && old(incoming) == b + incoming
      ensures b == [] <==> old(incoming) == []
    {
      if incoming == [] {
        return [];
      }
      var n :| 0 < n <= max && n <= |incoming|;
      b := incoming[..n];
      incoming := incoming[n..];
      received := received + b;
    }

    /** The bytes that arrived since `before`. */
    ghost function Since(before: Bytes): Bytes
      requires |before| <= |received|
      reads this`received
    {
      received[|before|..]
    }

    /** Reads until the head is complete; `first` is what is already there. */
    method ReadHead(first: Bytes) returns (buf: Bytes, result: HeadResult)
      requires Obeys(w.lib) && |batch| < MAX_BATCH && first != []
      modifies this`sent, this`batch, this`incoming, this`received
      ensures old(received) <= received && buf == first + Since(old(received)) && |batch| < MAX_BATCH
      ensures old(received + incoming) == received + incoming
      ensures sent + batch == old(sent + batch) + if result.Refused? then w.app.refusal(result.why) else []
      ensures result != Parsed ==> batch == []
      ensures var h := w.lib.parse(buf);
        match result
        case Parsed => 0 < h <= |buf|
        case Refused(BadRequest) => h == -1
        case Refused(HeadTooLarge) => h > w.maxHeader || (h == -2 && |buf| >= w.maxHeader)
        case Lost => h == -2 && incoming == []
      ensures w.lib.parse(first) > 0 ==> result == Parsed && received == old(received)
      ensures w.lib.parse(first) <= 0 && result == Parsed ==> w.lib.parse(buf) <= w.maxHeader
      ensures result == Lost && received != old(received) ==> |buf| <= w.maxHeader
    {
      hide Obeys;
      buf := first;
      var capacity := Max(|buf|, 8192);
      var parsed := w.lib.parse(buf);
      ParseBounds(w.lib, buf);
      if parsed > 0 {
        return buf, Parsed;
      }
      if parsed == -1 {
        Refuse(BadRequest);
        return buf, Refused(BadRequest);
      }
      while true
        invariant old(received) <= received && buf == first + Since(old(received)) && |batch| < MAX_BATCH
        invariant old(received + incoming) == received + incoming
        invariant sent + batch == old(sent + batch) && |buf| <= capacity && capacity > 0 && w.lib.parse(buf) == -2
        invariant received != old(received) ==> |buf| <= w.maxHeader
        decreases |incoming|
      {
        if |buf| >= capacity {
          if capacity >= w.maxHeader {
            Refuse(HeadTooLarge);
            return buf, Refused(HeadTooLarge);
          }
          capacity := capacity * 2;
        }
        Flush();
        var more := Read(capacity - |buf|);
        if more == [] {
          return buf, Lost;
        }
        buf := buf + more;
        parsed := w.lib.parse(buf);
        ParseBounds(w.lib, buf);
        if parsed > 0 {
          if parsed > w.maxHeader {
            Refuse(HeadTooLarge);
            return buf, Refused(HeadTooLarge);
          }
          return buf, Parsed;
        }
        if parsed == -1 {
          Refuse(BadRequest);
          return buf, Refused(BadRequest);
        }
        if |buf| > w.maxHeader {
          Refuse(HeadTooLarge);
          return buf, Refused(HeadTooLarge);
        }
      }
    }

    /** A refusal written to the socket, after whatever was held back. */
    method Refuse(why: Refusal)
      modifies this`sent, this`batch
      ensures batch == [] && sent == old(sent + batch) + w.app.refusal(why)
    {
      Flush();
      Write(w.app.refusal(why));
    }

    method ReadLength(buf: Bytes, h: nat, n: nat) returns (ok: bool, body: Bytes, spillSrc: nat, bufUsed: nat)
      requires |batch| < MAX_BATCH && h <= |buf| && n > 0
      modifies this`sent, this`batch, this`incoming, this`received
      ensures old(received) <= received && |batch| < MAX_BATCH && sent + batch == old(sent + batch)
      ensures old(received + incoming) == received + incoming
      ensures spillSrc + bufUsed <= |buf|
      ensures ok ==> var s := buf + Since(old(received));
        h + n <= |s| && body == s[h..h + n] && buf[spillSrc..spillSrc + bufUsed] == s[h + n..]
      ensures !ok ==> |buf + Since(old(received))| < h + n && bufUsed == 0 && incoming == []
    {
      var copied := Min(|buf| - h, n);
      body := buf[h..h + copied];
      bufUsed := |buf| - h - copied;
      spillSrc := if bufUsed > 0 then h + copied else 0;
      if copied < n {
        Flush();
      }
      while |body| < n
        invariant old(received) <= received && |body| <= n && |batch| < MAX_BATCH && sent + batch == old(sent + batch)
        invariant old(received + incoming) == received + incoming
        invariant |body| < n ==> batch == []
        invariant copied < n ==> batch == [] && bufUsed == 0
        invariant body == buf[h..h + copied] + Since(old(received))
      {
        var more := Read(n - |body|);
        if more == [] {
          return false, body, spillSrc, bufUsed;
        }
        body := body + more;
      }
      ok := true;
      ghost var s := buf + Since(old(received));
      assert s[h..] == buf[h..] + Since(old(received));
    }

    method ReadChunked(buf: Bytes, h: nat) returns (body: Bytes, flaw: Option<Flaw>, ghost fed: nat)
      requires Obeys(w.lib) && |batch| < MAX_BATCH && h <= |buf| && spill == []
      modifies this`sent, this`batch, this`incoming, this`received, this`spill
      ensures old(received) <= received && |batch| < MAX_BATCH && sent + batch == old(sent + batch)
      ensures old(received + incoming) == received + incoming
      ensures var s := buf[h..] + Since(old(received)); var f := w.lib.feed(0, s);
        match flaw
        case None => 0 <= f.ret <= |s| && f.out == body && |body| <= w.maxBody && spill == s[|s| - f.ret..]
        case Some(Oversize) => |f.out| > w.maxBody && spill == []
        case Some(Malformed) => |f.out| <= w.maxBody && f.ret == -1 && spill == []
        case Some(Truncated) => |f.out| <= w.maxBody && f.ret == -2 && spill == [] && incoming == []
      ensures var s := buf[h..] + Since(old(received));
        && fed <= |s| && (|s| <= fed + CHUNK_READ || received == old(received))
        && w.lib.feed(0, s[..fed]).ret == -2 && |w.lib.feed(0, s[..fed]).out| <= w.maxBody
    {
      hide Obeys;
      var chunk, state := buf[h..], 0;
      body := [];
      ghost var seen: Bytes := [];
      NothingFed(w.lib);
      while true
        invariant old(received) <= received && |batch| < MAX_BATCH && sent + batch == old(sent + batch) && spill == []
        invariant old(received + incoming) == received + incoming
        invariant w.lib.feed(0, seen) == Fed(state, body, -2) && |body| <= w.maxBody
        invariant buf[h..] + Since(old(received)) == seen + chunk
        invariant |chunk| <= CHUNK_READ || received == old(received)
        decreases |incoming|
      {
        fed := |seen|;
        assert (seen + chunk)[..fed] == seen;
        var f := w.lib.feed(state, chunk);
        FeedBounds(w.lib, state, chunk);
        FeedMore(w.lib, 0, seen, chunk);
        body := body + f.out;
        if |body| > w.maxBody {
          return body, Some(Oversize), fed;
        }
        if f.ret >= 0 {
          if f.ret > 0 {
            spill := chunk[|chunk| - f.ret..];
          }
          return body, None, fed;
        }
        if f.ret == -1 {
          return body, Some(Malformed), fed;
        }
        seen, state := seen + chunk, f.state;
        Flush();
        chunk := Read(CHUNK_READ);
        if chunk == [] {
          assert buf[h..] + Since(old(received)) == seen && seen[..|seen|] == seen;
          return body, Some(Truncated), |seen|;
        }
      }
    }

    /** What the end of an iteration leaves for the next one. */
    ghost function Left(buf: Bytes, spillSrc: nat, bufUsed: nat): Bytes
      requires spillSrc + bufUsed <= |buf|
      reads this`spill
    {
      if bufUsed > 0 then buf[spillSrc..spillSrc + bufUsed] else spill
    }

    method ReadByLength(ghost i: nat, buf: Bytes, h: nat, n: nat)
      returns (reading: Reading, spillSrc: nat, bufUsed: nat, ghost o: Outcome)
      requires Obeys(w.lib) && |batch| < MAX_BATCH && 0 < h == w.lib.parse(buf) <= |buf| && spill == []
      requires w.app.takesBody(i, buf[..h]) && w.lib.head(buf[..h]).framing == Length(n) && 0 < n <= w.maxBody
      modifies this`sent, this`batch, this`incoming, this`received
      ensures old(received) <= received && |batch| < MAX_BATCH && spillSrc + bufUsed <= |buf|
      ensures old(received + incoming) == received + incoming && sent + batch == old(sent + batch)
      ensures reading == Seen(o) && Leads(w, i, buf + Since(old(received)), h, o, Left(buf, spillSrc, bufUsed))
      ensures o.Complete? || (CutOff(o) && o.size == |buf + Since(old(received))| && incoming == [])
    {
      hide Obeys, Leads;
      var ok, body;
      ok, body, spillSrc, bufUsed := ReadLength(buf, h, n);
      ghost var more := Since(old(received));
      if ok {
        LengthLeads(w, i, buf, h, more, body, Left(buf, spillSrc, bufUsed));
        reading, o := Whole(body), Complete(body);
      } else {
        LengthBreaks(w, i, buf, h, more);
        reading, o := Failed(Truncated), Broken(|buf + more|, Truncated);
      }
    }

    method ReadByChunks(ghost i: nat, buf: Bytes, h: nat) returns (reading: Reading, ghost o: Outcome)
      requires Obeys(w.lib) && |batch| < MAX_BATCH && 0 < h == w.lib.parse(buf) <= |buf| && spill == []
      requires w.app.takesBody(i, buf[..h]) && w.lib.head(buf[..h]).framing == Chunked
      modifies this`sent, this`batch, this`incoming, this`received, this`spill
      ensures old(received) <= received && |batch| < MAX_BATCH
      ensures old(received + incoming) == received + incoming && sent + batch == old(sent + batch)
      ensures reading == Seen(o) && Leads(w, i, buf + Since(old(received)), h, o, spill)
      ensures o.Complete? || (o.Broken? && o.size == |buf + Since(old(received))|)
      ensures CutOff(o) ==> incoming == []
      ensures FlawInTime(w, buf + Since(old(received)), h, |buf|, o)
    {
      hide Obeys, Leads;
      ghost var fed;
      var body, flaw;
      body, flaw, fed := ReadChunked(buf, h);
      ghost var more := Since(old(received));
      FedInTime(w, buf, more, h, fed);
      if flaw.None? {
        ChunkedLeads(w, i, buf, h, more, body, spill);
        reading, o := Whole(body), Complete(body);
      } else {
        ChunkedBreaks(w, i, buf, h, more, flaw.value);
        reading, o := Failed(flaw.value), Broken(|buf + more|, flaw.value);
      }
    }

    /** 100 Continue if it is due, then the body. */
    method ReadBody(ghost i: nat, buf: Bytes, h: nat)
      returns (reading: Reading, spillSrc: nat, bufUsed: nat, ghost o: Outcome)
      requires Obeys(w.lib) && |batch| < MAX_BATCH && 0 < h == w.lib.parse(buf) <= |buf| && spill == []
      requires w.app.takesBody(i, buf[..h])
      modifies this`sent, this`batch, this`incoming, this`received, this`spill
      ensures old(received) <= received && |batch| < MAX_BATCH && spillSrc + bufUsed <= |buf|
      ensures old(received + incoming) == received + incoming
      ensures sent + batch == old(sent + batch) + if Interim(w, i, buf[..h]) then CONTINUE else []
      ensures reading == Seen(o) && Leads(w, i, buf + Since(old(received)), h, o, Left(buf, spillSrc, bufUsed))
      ensures o.Broken? ==> o.size == |buf + Since(old(received))|
      ensures CutOff(o) ==> incoming == []
      ensures FlawInTime(w, buf + Since(old(received)), h, |buf|, o)
      ensures o == Announced ==> received == old(received)
    {
      hide Obeys, Leads, StillOpen;
      var head := w.lib.head(buf[..h]);
      spillSrc, bufUsed := 0, |buf|;
      assert buf + [] == buf;
      if OverLimit(w, buf[..h]) {
        AnnouncedLeads(w, i, buf, h);
        assert buf + Since(old(received)) == buf && Left(buf, spillSrc, bufUsed) == buf;
        return TooLong, spillSrc, bufUsed, Announced;
      }
      if head.wantsContinue && head.framing != NoBody {
        Flush();
        Write(CONTINUE);
      }
      if head.framing.Length? && head.framing.n > 0 {
        reading, spillSrc, bufUsed, o := ReadByLength(i, buf, h, head.framing.n);
      } else if head.framing == Chunked {
        bufUsed := 0;
        reading, o := ReadByChunks(i, buf, h);
      } else {
        spillSrc, bufUsed := h, |buf| - h;
        NoneLeads(w, i, buf, h, Left(buf, spillSrc, bufUsed));
        assert buf + Since(old(received)) == buf;
        reading, o := Whole([]), Complete([]);
      }
    }

    // -------------------------------------------------------------- one request, and the whole session

    /**
     Between two requests: the answers so far are sent or batched, and the left-over bytes are where the
     reference stands.
     */
    ghost predicate Sound()
      reads this
    {
      && Obeys(w.lib) && |batch| < MAX_BATCH && Goes(w, log) && handled == |log|
      && sent + batch == Outputs(log) && Stands(w, received, log, spill)
    }

    /** The session is over: everything is sent, and the stream called for this ending. */
    ghost predicate Over(e: Ending)
      reads this
    {
      && batch == [] && Reach(w, received, log).Some?
      && var rest := received[Reach(w, received, log).value..];
         && EndsAs(w, rest, log, e) && sent == Outputs(log) + LastReply(w, rest, e)
         && (e == PeerGone ==> incoming == [])
    }

    /**
     Where the left-over bytes stand after request `i`, which was at the front of `rest`: at the same request, or
     right behind it, or neither.
     */
    ghost predicate Position(i: nat, rest: Bytes, head: Bytes)
      reads this`spill
    {
      && (spill == rest <==> !w.app.takesBody(i, head) || OverLimit(w, head))
      && (FollowsFirst(w.lib, rest, spill) <==>
            && w.app.takesBody(i, head) && !OverLimit(w, head) && Take(w.lib, rest).Some?
            && (|Take(w.lib, rest).value.body| <= w.maxBody || Take(w.lib, rest).value.size == |rest|))
    }

    /**
     The bytes start with a request that keeps the connection, and whose body is not asked for or announced as
     too large.
     */
    predicate Repeating(s: Bytes, i: nat) {
      && Answerable(w.lib, s)
      && var head := HeadOf(w.lib, s); Continues(w, i, head) && (!w.app.takesBody(i, head) || OverLimit(w, head))
    }

    /** Takes the left-over bytes or waits for new ones, and reads a head. */
    method Begin() returns (buf: Bytes, result: HeadResult)
      requires Sound()
      modifies this`sent, this`batch, this`spill, this`incoming, this`received
      ensures old(received) <= received && |batch| < MAX_BATCH && old(received + incoming) == received + incoming
      ensures sent + batch == Outputs(log) + if result.Refused? then w.app.refusal(result.why) else []
      ensures Stands(w, received, log, buf)
      ensures result == Parsed ==> spill == [] && 0 < w.lib.parse(buf) <= |buf|
      ensures result == Lost ==> batch == [] && EndsAs(w, buf, log, PeerGone) && incoming == []
      ensures result.Refused? ==> batch == [] && EndsAs(w, buf, log, Turned(result.why))
      ensures old(spill) != [] && w.lib.parse(old(spill)) > 0 ==>
        result == Parsed && buf == old(spill) && received == old(received)
      ensures result == Parsed ==> HeadInTime(w.lib, old(spill), buf, |buf|)
    {
      hide Obeys, Outputs, Stands;
      var first := spill;
      if first == [] {
        Flush();
        first := Read(FIRST_READ);
        StandsMore(w, old(received), log, [], first);
        assert first == [] + first;
        if first == [] {
          EmptyIsIncomplete(w.lib);
          return [], Lost;
        }
      }
      spill := [];
      ghost var mid := received;
      buf, result := ReadHead(first);
      StandsMore(w, mid, log, first, Since(mid));
      assert mid + Since(mid) == received;
      assert received == mid ==> first + Since(mid) == first;
      assert buf[..|first|] == first;
    }

    /** Answers, and keeps the left-over bytes. */
    method Finish(
      i: nat, buf: Bytes, h: nat, reading: Reading, spillSrc: nat, bufUsed: nat, ghost o: Outcome) returns (again: bool)
      requires |batch| < MAX_BATCH && h <= |buf| && spillSrc + bufUsed <= |buf| && reading == Seen(o)
      requires i == handled == |log|
      requires sent + batch == Outputs(log) + (if Interim(w, i, buf[..h]) then CONTINUE else [])
      modifies this`sent, this`batch, this`spill, this`log, this`handled
      ensures |batch| < MAX_BATCH && sent + batch == Outputs(log) && log == old(log) + [Answered(w, i, buf[..h], o)]
      ensures handled == |log| && (again <==> Continues(w, i, buf[..h]))
      ensures !again ==> batch == []
      ensures spill == old(Left(buf, spillSrc, bufUsed))
    {
      hide Outputs, Output, Wire, Interim;
      var head := w.lib.head(buf[..h]);
      var response := w.app.answer(i, buf[..h], reading);
      again := head.keepAlive && !w.app.draining(i);
      Deliver(response, head.isHead, again, bufUsed);
      if bufUsed > 0 {
        spill := buf[spillSrc..spillSrc + bufUsed];
      }
      ghost var x := Answered(w, i, buf[..h], o);
      OutputsNext(log, x);
      log := log + [x];
      handled := handled + 1;
    }

    /** Reads the body if the application asks for it, then answers. */
    method Answer(i: nat, buf: Bytes, h: nat) returns (again: bool)
      requires Obeys(w.lib) && |batch| < MAX_BATCH && spill == [] && sent + batch == Outputs(log)
      requires i == handled == |log|
      requires Goes(w, log) && Stands(w, received, log, buf) && Answerable(w.lib, buf) && h == w.lib.parse(buf)
      modifies this
      ensures old(received) <= received && old(received + incoming) == received + incoming
      ensures |batch| < MAX_BATCH && sent + batch == Outputs(log)
      ensures handled == |log| == |old(log)| + 1 && old(log) <= log && log[i].head == buf[..h]
      ensures Stands(w, received, old(log), buf + Since(old(received)))
      ensures Handled(w, i, buf + Since(old(received)), log[i], spill) && (CutOff(log[i].outcome) ==> incoming == [])
      ensures FlawInTime(w, buf + Since(old(received)), h, |buf|, log[i].outcome)
      ensures Stands(w, received, log, spill) && (again <==> Goes(w, log)) && (!again ==> batch == [])
      ensures !w.app.takesBody(i, buf[..h]) || OverLimit(w, buf[..h]) ==> received == old(received) && spill == buf
    {
      hide Obeys, Outputs, Stands, Leads, Answered, Interim, OutcomeOk, Advance, Legal, Handled, Continues, OverLimit;
      hide StillOpen;
      ghost var xs, was := log, received;
      var reading, spillSrc, bufUsed := NotAsked, 0, |buf|;
      ghost var o := Untouched;
      if w.app.takesBody(i, buf[..h]) {
        reading, spillSrc, bufUsed, o := ReadBody(i, buf, h);
      } else {
        UntouchedLeads(w, i, buf, h);
        assert Since(was) == [] && buf + [] == buf;
      }
      ghost var more, left := Since(was), Left(buf, spillSrc, bufUsed);
      again := Finish(i, buf, h, reading, spillSrc, bufUsed, o);
      assert was + more == received;
      Landed(w, was, more, xs, buf, h, o, left);
    }

    /** A whole head is there: refuses it, hands the socket over, or answers. */
    method Proceed(buf: Bytes) returns (again: bool, ending: Ending)
      requires Obeys(w.lib) && |batch| < MAX_BATCH && spill == [] && sent + batch == Outputs(log) && handled == |log|
      requires Goes(w, log) && Stands(w, received, log, buf) && 0 < w.lib.parse(buf) <= |buf|
      modifies this
      ensures old(received) <= received && old(received + incoming) == received + incoming && old(log) <= log
      ensures again ==> Sound()
      ensures !again ==> Over(ending) && ending != PeerGone
      ensures |log| == |old(log)| + (if again || ending == Closed then 1 else 0)
      ensures |log| > |old(log)| && CutOff(log[|old(log)|].outcome) ==> incoming == []
      ensures |log| > |old(log)| ==> Stands(w, received, log, spill)
      ensures |log| > |old(log)| ==> var rest, x := buf + Since(old(received)), log[|old(log)|];
        && Stands(w, received, old(log), rest) && x.head == HeadOf(w.lib, buf)
        && Handled(w, |old(log)|, rest, x, spill) && FlawInTime(w, rest, |x.head|, |buf|, x.outcome)
      ensures Repeating(buf, |old(log)|) ==> again && received == old(received) && spill == buf
    {
      hide Obeys, Outputs, Reach, Handled, OverLimit, FlawInTime;
      var i, h := handled, w.lib.parse(buf);
      var head := w.lib.head(buf[..h]);
      if head.reject.Some? {
        Flush();
        Write(head.reject.value);
        return false, Rejected;
      }
      if head.takeover {
        Flush();
        return false, HandedOver;
      }
      again := Answer(i, buf, h);
      ending := Closed;
    }

    /** One request from its first byte to its answer, or the end of the session. */
    method Iterate() returns (again: bool, ending: Ending)
      requires Sound()
      modifies this
      ensures old(received) <= received && old(received + incoming) == received + incoming && old(log) <= log
      ensures again ==> Sound()
      ensures !again ==> Over(ending)
      ensures |log| == |old(log)| + (if again || ending == Closed then 1 else 0)
      ensures |log| > |old(log)| ==> Stands(w, received, log, spill) && Reach(w, received, old(log)).Some?
      ensures |log| > |old(log)| && CutOff(log[|old(log)|].outcome) ==> incoming == []
      ensures |log| > |old(log)| ==> var rest, x := received[Reach(w, received, old(log)).value..], log[|old(log)|];
        Handled(w, |old(log)|, rest, x, spill) && Position(|old(log)|, rest, x.head) && InTime(w, old(spill), rest, x)
      ensures Repeating(old(spill), old(|log|)) ==>
        again && received == old(received) && spill == old(spill) && log[|log| - 1].head == HeadOf(w.lib, spill)
    {
      hide Obeys, Outputs, Reach, Handled, FollowsFirst, OverLimit, Take, InTime, FlawInTime, HeadInTime;
      hide Continues;
      var buf, result := Begin();
      if result == Lost {
        return false, PeerGone;
      }
      if result.Refused? {
        return false, Turned(result.why);
      }
      ghost var i, mid := |log|, received;
      again, ending := Proceed(buf);
      if |log| > i {
        Settles(w, i, buf, Since(mid), log[i], spill, old(spill));
      }
    }

    /** Exchange `i` is the last, and there is nothing after it: neither left over nor to come. */
    ghost predicate AllTaken(i: nat)
      reads this
    {
      i == |log| - 1 && incoming == [] && Reach(w, received, log) == Some(|received|)
    }

    /** The session for at most `rounds` requests. */
    method Run(rounds: nat) returns (over: bool, ending: Ending)
      requires Sound()
      modifies this
      ensures old(received) <= received && old(received + incoming) == received + incoming && old(log) <= log
      ensures over ==> Over(ending)
      ensures !over ==> Sound() && |log| == |old(log)| + rounds
      ensures Reach(w, received, log).Some?
      ensures Unbroken(log) ==> Serve(w, received, |log|) == Some(Served(log, Reach(w, received, log).value))
      ensures forall i :: |old(log)| <= i < |log| && CutOff(log[i].outcome) ==> AllTaken(i)
      ensures forall i :: |old(log)| <= i < |log| && log[i].outcome.Broken? ==> Unreadable(w, received, log, i)
    {
      hide Outputs, Obeys, Reach, Serve, Readable, Handled, InTime, FollowsFirst, Take, OverLimit;
      ending := Closed;
      var n := 0;
      over := false;
      while n < rounds && !over
        invariant old(received) <= received && old(received + incoming) == received + incoming && old(log) <= log
        invariant !over ==> Sound() && |log| == |old(log)| + n && n <= rounds
        invariant over ==> Over(ending)
        invariant forall i :: |old(log)| <= i < |log| && CutOff(log[i].outcome) ==> AllTaken(i)
        decreases rounds - n, if over then 0 else 1
      {
        ghost var xs, was := log, received;
        ghost var done := incoming == [] && Reach(w, received, log) == Some(|received|);
        var again;
        again, ending := Iterate();
        assert forall i :: 0 <= i < |xs| ==> log[i] == xs[i];
        if done {
          NoMore(was, received, incoming);
        }
        if |log| > |xs| {
          NothingAtEnd(w, |xs|, received[Reach(w, received, xs).value..], log[|xs|], spill);
          assert !done && log == xs + [log[|xs|]];
        } else {
          assert log == xs;
        }
        over := !again;
        if again {
          n := n + 1;
        }
      }
      if Unbroken(log) {
        ReachServes(w, received, log);
      }
      forall i | |old(log)| <= i < |log| && log[i].outcome.Broken? ensures Unreadable(w, received, log, i) {
        BrokenIsUnreadable(w, received, log, i);
      }
    }
  }

  // ---------------------------------------------------------------- the same request again

  /**
   For every number of rounds: a request that leaves the stream in place is answered in each of them, and no
   further byte is read.
   */
  method AnswersAgain(session: Session, rounds: nat)
    requires session.Sound() && forall i :: i >= |session.log| ==> session.Repeating(session.spill, i)
    modifies session
    ensures session.Sound() && session.received == old(session.received) && session.incoming == old(session.incoming)
    ensures session.spill == old(session.spill)
    ensures |session.log| == |old(session.log)| + rounds && old(session.log) <= session.log
    ensures forall i :: |old(session.log)| <= i < |session.log| ==>
      session.log[i].head == HeadOf(session.w.lib, session.spill)
  {
    hide Obeys, Outputs, Stands, Handled, HeadOf, Answerable, Continues, OverLimit, Goes, Reach, EndsAs;
    ghost var before, s := session.log, session.spill;
    var n := 0;
    assert session.Repeating(s, |before|);
    while n < rounds
      invariant n <= rounds && session.Sound() && session.received == old(session.received)
      invariant session.incoming == old(session.incoming) && session.spill == s
      invariant |session.log| == |before| + n && before <= session.log
      invariant forall i :: |before| <= i < |session.log| ==> session.log[i].head == HeadOf(session.w.lib, s)
    {
      ghost var xs := session.log;
      assert session.Repeating(s, |xs|);
      ghost var waiting := session.incoming;
      var again, ending := session.Iterate();
      Cancel(session.received, session.incoming, waiting);
      assert forall i :: 0 <= i < |xs| ==> session.log[i] == xs[i];
      n := n + 1;
    }
  }

  /** An application that never asks for a body and says "x" to everything. */
  function Deaf(): World {
    World(Small(), 8192, 0, App((i, h) => false, (i, h, r) => Response("x", "", Plain), i => false, r => ""))
  }

  lemma {:induction false} DeafStays(s: Bytes, xs: seq<Exchange>)
    requires Reach(Deaf(), s, xs).Some?
    ensures Reach(Deaf(), s, xs) == Some(0)
  {
    if xs != [] {
      DeafStays(s, xs[..|xs| - 1]);
    }
  }

  lemma DeafAnswers(s: Bytes, xs: seq<Exchange>)
    requires Reach(Deaf(), s, xs).Some?
    ensures |xs| == 1 ==> |s| > 0 && xs[0].head == s[..1]
  {
    assert |xs| == 1 ==> xs[..0] == [] && s[0..] == s;
  }

  lemma DeafRepeats(a: Bytes, i: nat)
    requires |a| == 1
    ensures var w := Deaf();
      Answerable(w.lib, a) && HeadOf(w.lib, a) == a && Continues(w, i, a) && !w.app.takesBody(i, a)
  {
    assert a[..1] == a;
  }

  /** Such a session ends only when it has got nothing at all. */
  lemma DeafNeverEnds(s: Bytes, xs: seq<Exchange>, e: Ending)
    requires Reach(Deaf(), s, xs).Some?
    ensures EndsAs(Deaf(), s[Reach(Deaf(), s, xs).value..], xs, e) ==> e == PeerGone && s == []
  {
    DeafStays(s, xs);
    hide Reach;
    assert s[0..] == s;
  }

  lemma Single(a: Bytes, b: Bytes, c: Bytes)
    requires a + b == c && |c| == 1
    ensures a != [] ==> a == c && b == [] && a[..1] == c && a[0..] == c
  {
    assert |a| + |b| == 1;
    assert a != [] ==> (a + b)[0] == a[0];
  }

  lemma NoMore(was: Bytes, now: Bytes, waiting: Bytes)
    requires was + [] == now + waiting && was <= now
    ensures now == was && waiting == []
  {
    assert |was| == |now| + |waiting|;
  }

  lemma Cancel(a: Bytes, b: Bytes, c: Bytes)
    requires a + b == a + c
    ensures b == c
  {
    assert (a + b)[|a|..] == b && (a + c)[|a|..] == c;
  }

  lemma DeafIsSound()
    ensures Obeys(Deaf().lib)
  {
    ObeysIsPossible();
  }

  lemma DeafStarts(a: Bytes, r: Bytes, waiting: Bytes, xs: seq<Exchange>, again: bool, e: Ending)
    requires |a| == 1 && r + waiting == a && Reach(Deaf(), r, xs).Some? && (again ==> |xs| == 1)
    requires !again ==> EndsAs(Deaf(), r[Reach(Deaf(), r, xs).value..], xs, e) && (e == PeerGone ==> waiting == [])
    ensures again && r == a && waiting == [] && xs[0].head == a && r[Reach(Deaf(), r, xs).value..] == a
  {
    hide Reach, EndsAs, Deaf, Obeys;
    DeafNeverEnds(r, xs, e);
    DeafStays(r, xs);
    DeafAnswers(r, xs);
    Single(r, waiting, a);
  }

  lemma StartsWith(a: Bytes, b: Bytes, c: Bytes)
    requires a == [] && b == c
    ensures a + b == c
  {
  }

  /** The first round with a peer that sends the one request `a`. */
  method FirstRound(a: Bytes) returns (session: Session, again: bool, ending: Ending)
    requires |a| == 1
    ensures fresh(session) && session.w == Deaf() && session.received + session.incoming == a
    ensures again ==> session.Sound() && |session.log| == 1
    ensures !again ==> session.Over(ending)
  {
    hide *;
    DeafIsSound();
    session := new Session(Deaf(), a);
    StartsWith(session.received, session.incoming, a);
    again, ending := session.Iterate();
  }

  method FirstAnswer(a: Bytes) returns (session: Session)
    requires |a| == 1
    ensures fresh(session) && session.Sound() && session.w == Deaf() && |session.log| == 1 && session.log[0].head == a
    ensures session.received == session.spill == a && session.incoming == []
  {
    hide Obeys, Outputs, EndsAs, LastReply, Goes, Reach, Deaf;
    var again, ending;
    session, again, ending := FirstRound(a);
    DeafStarts(a, session.received, session.incoming, session.log, again, ending);
  }

  /**
   A peer sends one request of one byte: after any number of further rounds it has been answered once in each of
   them.
   */
  method OneRequestManyAnswers(a: Bytes, rounds: nat) returns (session: Session)
    requires |a| == 1
    ensures session.Sound() && session.received == a && session.incoming == [] && |session.log| == rounds + 1
    ensures forall i :: 0 <= i < |session.log| ==> session.log[i].head == a
  {
    hide Obeys, Outputs, Stands, Goes, Answerable, Continues, OverLimit, HeadOf;
    session := FirstAnswer(a);
    forall i: nat ensures session.Repeating(a, i) {
      DeafRepeats(a, i);
    }
    ghost var first := session.log[0];
    AnswersAgain(session, rounds);
    DeafRepeats(a, 0);
    assert session.log[0] == first;
  }

  // ---------------------------------------------------------------- a body taken for requests

  /** An application that asks for every body, of which the limit allows none. */
  function Strict(): World {
    World(Small(), 8192, 0, App((i, h) => true, (i, h, r) => Response("x", "", Plain), i => false, r => ""))
  }

  /** A request with a chunked body that goes on for `n` bytes. */
  function LongBody(n: nat): Bytes {
    ['c'] + seq(n, i => 'a')
  }

  lemma {:induction false} FeedPlain(b: Bytes)
    requires forall i :: 0 <= i < |b| ==> b[i] != '.'
    ensures Feed(b) == Fed(0, b, -2)
  {
    if b != [] {
      FeedPlain(b[1..]);
      assert b == [b[0]] + b[1..];
    }
  }

  lemma LongBodyAt(n: nat, r: Bytes, waiting: Bytes, k: nat)
    requires r + waiting == LongBody(n) && k < |r|
    ensures r[k] == (if k == 0 then 'c' else 'a') && |r| + |waiting| == n + 1
  {
    assert (r + waiting)[k] == r[k];
  }

  /** Such a session ends only when everything is consumed. */
  lemma StrictEnds(rest: Bytes, xs: seq<Exchange>, e: Ending)
    requires EndsAs(Strict(), rest, xs, e)
    ensures e == PeerGone && rest == []
  {
  }

  /** The first request: its body breaks, and more of it is still to come. */
  lemma StrictFirst(n: nat, r: Bytes, waiting: Bytes, x: Exchange, left: Bytes)
    requires n >= 8192 && r + waiting == LongBody(n) && Handled(Strict(), 0, r, x, left)
    requires (CutOff(x.outcome) ==> waiting == []) && InTime(Strict(), [], r, x)
    ensures x.head == "c" && x.outcome == Broken(|r|, Oversize) && left == [] && waiting != [] && |r| > 0
  {
    var w := Strict();
    LongBodyAt(n, r, waiting, 0);
    assert r[..1] == "c" && x.head == "c";
    forall i | 0 <= i < |r[1..]| ensures r[1..][i] == 'a' {
      LongBodyAt(n, r, waiting, i + 1);
    }
    FeedPlain(r[1..]);
    assert r[..|r|] == r;
    assert w.lib.feed(0, r[1..]) == Fed(0, r[1..], -2);
    assert x.outcome.Broken?;
    StrictIsPrompt(r, x);
  }

  lemma StrictIsPrompt(r: Bytes, x: Exchange)
    requires InTime(Strict(), [], r, x) && x.head == "c" && x.outcome.Broken?
    requires forall i :: 1 <= i < |r| ==> r[i] != '.'
    ensures !CutOff(x.outcome) ==> |r| <= 1 + FIRST_READ + CHUNK_READ
  {
    var w := Strict();
    var n :| |x.head| <= n <= |r| && HeadInTime(w.lib, [], r, n) && FlawInTime(w, r, |x.head|, n, x.outcome);
    if !CutOff(x.outcome) && |r| != n {
      var b :| 1 <= b <= |r| <= b + CHUNK_READ && StillOpen(w, r, 1, b);
      FeedPlain(r[1..b]);
    }
  }

  lemma StrictIsSound()
    ensures Obeys(Strict().lib)
  {
    ObeysIsPossible();
  }

  /** The first round: the long body is too large, the request is answered, and part of the body is still to come. */
  method StrictRound(n: nat) returns (session: Session)
    requires n >= 8192
    ensures fresh(session) && session.Sound() && session.w == Strict() && |session.log| == 1
    ensures session.received + session.incoming == LongBody(n) && session.incoming != [] && session.received != []
    ensures session.log[0].head == "c" && session.log[0].outcome == Broken(|session.received|, Oversize)
    ensures session.spill == []
  {
    hide Obeys, Outputs, Handled, EndsAs, LastReply, Goes, OverLimit, Take, FollowsFirst, Strict, InTime, CutOff;
    hide LongBody;
    StrictIsSound();
    session := new Session(Strict(), LongBody(n));
    StartsWith(session.received, session.incoming, LongBody(n));
    var again, ending := session.Iterate();
    LongBodyIsLong(n);
    if !again {
      StrictNeverEnds(session.received, session.log, ending);
    }
    assert again;
    assert session.received[0..] == session.received;
    StrictFirst(n, session.received, session.incoming, session.log[0], session.spill);
  }

  lemma LongBodyIsLong(n: nat)
    ensures |LongBody(n)| == n + 1
  {
  }

  lemma StrictNeverEnds(r: Bytes, xs: seq<Exchange>, e: Ending)
    requires Reach(Strict(), r, xs).Some? && EndsAs(Strict(), r[Reach(Strict(), r, xs).value..], xs, e)
    ensures e == PeerGone && Reach(Strict(), r, xs) == Some(|r|)
  {
    hide Reach;
    StrictEnds(r[Reach(Strict(), r, xs).value..], xs, e);
  }

  /** A request at the front of what is left of the long body is one of its bytes. */
  lemma StrictSecond(n: nat, r: Bytes, waiting: Bytes, k: nat, x: Exchange, left: Bytes)
    requires r + waiting == LongBody(n) && 0 < k <= |r| && Handled(Strict(), 1, r[k..], x, left)
    ensures x.head == "a"
  {
    var rest := r[k..];
    assert rest != [] && x.head == rest[..1];
    LongBodyAt(n, r, waiting, k);
    assert rest[0] == r[k];
  }

  /** After a body that was too large, the session takes the next byte of that body for a request, and answers it. */
  method BodyBecomesRequest(n: nat) returns (session: Session)
    requires n >= 8192
    ensures session.Sound() && session.received + session.incoming == LongBody(n) && |session.log| == 2
    ensures session.log[0].head == "c" && session.log[0].outcome.Broken? && session.log[1].head == "a"
  {
    hide Obeys, Outputs, Handled, EndsAs, LastReply, Goes, OverLimit, Take, FollowsFirst, Strict, InTime, CutOff;
    hide LongBody, Reach, HeadOf, Answerable, Continues;
    session := StrictRound(n);
    ghost var r, waiting, xs := session.received, session.incoming, session.log;
    assert Reach(session.w, r, xs) == Some(|r|);
    var again, ending := session.Iterate();
    ghost var now := session.received;
    assert now == r + now[|r|..];
    ReachMore(session.w, r, xs, now[|r|..]);
    if !again {
      StrictGoesOn(r, waiting, now, session.incoming, xs, session.log, ending);
    }
    assert again && session.log[0] == xs[0];
    StrictSecond(n, now, session.incoming, |r|, session.log[1], session.spill);
  }

  /** An ending would have to leave bytes unread, which no ending does. */
  lemma StrictGoesOn(
    r: Bytes, waiting: Bytes, now: Bytes, left: Bytes, xs: seq<Exchange>, log: seq<Exchange>, e: Ending)
    requires r + waiting == now + left && waiting != []
    requires Reach(Strict(), now, xs) == Some(|r|)
    requires xs <= log && (e != Closed ==> |log| == |xs|)
    requires Reach(Strict(), now, log).Some? && EndsAs(Strict(), now[Reach(Strict(), now, log).value..], log, e)
    ensures e == PeerGone && left != []
  {
    hide Reach, Strict, EndsAs;
    StrictNeverEnds(now, log, e);
    assert log == xs;
    assert |r| + |waiting| == |now| + |left|;
  }
}
