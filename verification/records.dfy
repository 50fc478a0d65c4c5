/**
 The records a tracing session appends to the trace file, and what an offline
 reader can recover from them.

 Addresses are 64-bit machine words. The tracer logs `p - offset` computed on a
 pointer and a `size_t`, which wraps around modulo 2^64; `Rebase` writes that
 wrap-around out and `Unrebase` is its inverse.
 */
module Records {

  datatype Option<T> = None | Some(value: T)

  /** 2^64: the number of distinct machine addresses. */
  const WORD: int := 0x1_0000_0000_0000_0000

  type Addr = x: int | 0 <= x < WORD

  /** The tag of a hook call: function entry or function exit. */
  datatype Kind = Enter | Exit

  /** One call of a compiler-inserted hook: its tag and the traced function's address. */
  datatype Call = Call(kind: Kind, fn: Addr)

  /** The build-time reference function: its name and its address once loaded. */
  datatype RefFunction = RefFunction(name: string, addr: Addr)

  /** One line of the trace file. */
  datatype Record =
    | Reference(name: string, addr: Addr)  // "REFERENCE: <name> <addr>", raw address
    | Event(kind: Kind, addr: Addr)        // "enter <addr>" or "exit <addr>", rebased address
    | End(pid: int)                        // "EXIT <pid>"

  /** Adds `offset` back, modulo 2^64. */
  function Unrebase(a: Addr, offset: Addr): Addr
  {
    if a + offset < WORD then a + offset else a + offset - WORD
  }

  /** The address the tracer logs for `p`: `p - offset`, modulo 2^64. */
  function Rebase(p: Addr, offset: Addr): (r: Addr)
    ensures offset <= p ==> r == p - offset
    ensures Unrebase(r, offset) == p
  {
    if offset <= p then p - offset else p - offset + WORD
  }

  /** The record emitted for one hook call. */
  function EventOf(c: Call, offset: Addr): Record
  {
    Event(c.kind, Rebase(c.fn, offset))
  }

  /** The event records emitted for a sequence of hook calls, in call order. */
  function Trace(calls: seq<Call>, offset: Addr): (t: seq<Record>)
    ensures |t| == |calls|
  {
    seq(|calls|, i requires 0 <= i < |calls| => EventOf(calls[i], offset))
  }

  /** Record `i` of a trace is an event with the tag of call `i` and an address that gives back call `i`'s. */
  lemma TraceAt(calls: seq<Call>, offset: Addr, i: nat)
    requires i < |calls|
    ensures var r := Trace(calls, offset)[i];
      r.Event? && r.kind == calls[i].kind && Unrebase(r.addr, offset) == calls[i].fn
  {
  }

  /** One more hook call appends exactly its event. */
  lemma TraceSnoc(calls: seq<Call>, c: Call, offset: Addr)
    ensures Trace(calls + [c], offset) == Trace(calls, offset) + [EventOf(c, offset)]
  {
  }

  /** The reference line, present exactly when a reference function is configured. */
  function Header(reference: Option<RefFunction>): seq<Record>
  {
    match reference
    case None => []
    case Some(f) => [Reference(f.name, f.addr)]
  }

  /** The termination line, present once the finalizer has run with process id `pid`. */
  function Footer(ended: Option<int>): seq<Record>
  {
    match ended
    case None => []
    case Some(pid) => [End(pid)]
  }

  /** Everything one process appends to the trace file once the file is open. */
  function Session(reference: Option<RefFunction>, calls: seq<Call>, offset: Addr, ended: Option<int>): seq<Record>
  {
    Header(reference) + Trace(calls, offset) + Footer(ended)
  }

  /**
   The shape of a session: a reference line can only be the first record and is
   there exactly when one is configured, carrying the raw (not rebased) address;
   a termination line can only be the last record and is there exactly once the
   finalizer has run; everything in between is one event per hook call.
   */
  lemma SessionShape(reference: Option<RefFunction>, calls: seq<Call>, offset: Addr, ended: Option<int>)
    ensures var s := Session(reference, calls, offset, ended);
      && |s| == |Header(reference)| + |calls| + |Footer(ended)|
      && (forall i :: 0 <= i < |s| && s[i].Reference? ==> i == 0 && reference == Some(RefFunction(s[i].name, s[i].addr)))
      && (forall i :: 0 <= i < |s| && s[i].End? ==> i == |s| - 1 && ended == Some(s[i].pid))
      && (reference.Some? <==> |s| > 0 && s[0].Reference?)
      && (ended.Some? <==> |s| > 0 && s[|s| - 1].End?)
  {
    var h, t, f := Header(reference), Trace(calls, offset), Footer(ended);
    var s := h + t + f;
    assert s == Session(reference, calls, offset, ended);
    forall i | 0 <= i < |s|
      ensures (i < |h| ==> s[i] == h[i])
      ensures (|h| <= i < |h| + |t| ==> s[i] == t[i - |h|] && s[i].Event?)
      ensures (|h| + |t| <= i ==> s[i] == f[i - |h| - |t|])
    {
      if |h| <= i < |h| + |t| {
        TraceAt(calls, offset, i - |h|);
      }
    }
  }

  /** One more hook call in an open, unfinished session appends exactly its event. */
  lemma SessionSnoc(reference: Option<RefFunction>, calls: seq<Call>, c: Call, offset: Addr)
    ensures Session(reference, calls + [c], offset, None) == Session(reference, calls, offset, None) + [EventOf(c, offset)]
  {
    TraceSnoc(calls, c, offset);
    assert Footer(None) == [];
  }

  /** What an offline reader gets back from a log, given the offset: the hook calls, in order. */
  function Replay(log: seq<Record>, offset: Addr): seq<Call>
  {
    if log == [] then []
    else Replay(log[..|log| - 1], offset) + ReplayOne(log[|log| - 1], offset)
  }

  function ReplayOne(r: Record, offset: Addr): seq<Call>
  {
    match r
    case Event(k, a) => [Call(k, Unrebase(a, offset))]
    case _ => []
  }

  lemma ReplaySnoc(s: seq<Record>, r: Record, offset: Addr)
    ensures Replay(s + [r], offset) == Replay(s, offset) + ReplayOne(r, offset)
  {
    assert (s + [r])[..|s|] == s;
  }

  lemma {:induction false} ReplayAppend(a: seq<Record>, b: seq<Record>, offset: Addr)
    ensures Replay(a + b, offset) == Replay(a, offset) + Replay(b, offset)
  {
    if b == [] {
      assert a + b == a;
    } else {
      var b', r := b[..|b| - 1], b[|b| - 1];
      assert b == b' + [r];
      calc {
        Replay(a + b, offset);
        { assert a + b == (a + b') + [r]; ReplaySnoc(a + b', r, offset); }
        Replay(a + b', offset) + ReplayOne(r, offset);
        { ReplayAppend(a, b', offset); }
        Replay(a, offset) + Replay(b', offset) + ReplayOne(r, offset);
        { ReplaySnoc(b', r, offset); }
        Replay(a, offset) + Replay(b, offset);
      }
    }
  }

  lemma ReplaySingle(r: Record, offset: Addr)
    ensures Replay([r], offset) == ReplayOne(r, offset)
  {
    assert [r][..0] == [];
  }

  lemma {:induction false} ReplayTrace(calls: seq<Call>, offset: Addr)
    ensures Replay(Trace(calls, offset), offset) == calls
  {
    if calls != [] {
      var init, c := calls[..|calls| - 1], calls[|calls| - 1];
      var e := EventOf(c, offset);
      assert calls == init + [c];
      calc {
        Replay(Trace(calls, offset), offset);
        { TraceSnoc(init, c, offset); }
        Replay(Trace(init, offset) + [e], offset);
        { ReplayAppend(Trace(init, offset), [e], offset); }
        Replay(Trace(init, offset), offset) + Replay([e], offset);
        { ReplayTrace(init, offset); ReplaySingle(e, offset); }
        init + [c];
      }
    }
  }

  /**
   Round trip: a session log loses nothing about the hook calls. Given the offset,
   a reader recovers exactly the calls, with their tags, addresses and order,
   whether or not the reference and termination lines are present.
   */
  lemma ReplaySession(reference: Option<RefFunction>, calls: seq<Call>, offset: Addr, ended: Option<int>)
    ensures Replay(Session(reference, calls, offset, ended), offset) == calls
  {
    var h, t, f := Header(reference), Trace(calls, offset), Footer(ended);
    ReplayAppend(h + t, f, offset);
    ReplayAppend(h, t, offset);
    ReplayTrace(calls, offset);
    ReplayHeader(reference, offset);
    ReplayFooter(ended, offset);
    assert Session(reference, calls, offset, ended) == (h + t) + f;
  }

  lemma ReplayHeader(reference: Option<RefFunction>, offset: Addr)
    ensures Replay(Header(reference), offset) == []
  {
    var h := Header(reference);
    if h != [] {
      assert h[..0] == [];
    }
  }

  lemma ReplayFooter(ended: Option<int>, offset: Addr)
    ensures Replay(Footer(ended), offset) == []
  {
    var f := Footer(ended);
    if f != [] {
      assert f[..0] == [];
    }
  }
}
