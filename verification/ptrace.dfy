/**
 The tracer runtime: the two static flags `first` and `active`, the trace file
 handle, the code-segment offset, and the hooks gcc's `-finstrument-functions`
 calls on every function entry and exit.

 The operating system is replaced by a `Probe`: what `stat`, `fopen`,
 `strerror` and the read of `/proc/self/maps` would report if the tracer
 initialised itself now. Every hook call carries one; only the call that runs
 the initialisation reads it.
 */
module Ptrace {
  import opened Records

  /** The three states encoded by `first` and `active`. */
  datatype Phase = Unprobed | Active | Inactive

  /** What the environment answers when the tracer initialises. */
  datatype Probe = Probe(
    markerExists: bool,  // `stat("TRACE")` succeeds
    openOk: bool,        // `fopen("TRACE", "a")` succeeds
    errText: string,     // `strerror(errno)` when it does not
    mapsOffset: Addr)    // the first number of /proc/self/maps: the code segment's start

  /** The line `printf` writes to standard output when the trace file cannot be opened. */
  const ERROR_BANNER: string := "[gnu_ptrace error]\n"

  /** The line `perror(s)` writes to standard error when the error text is `err`. */
  function PerrorLine(s: string, err: string): string
  {
    if s == [] then err + "\n" else s + ": " + err + "\n"
  }

  /** Whether initialisation with this probe leaves the tracer active. */
  predicate Activates(probe: Probe)
  {
    probe.markerExists && probe.openOk
  }

  /** The state a hook call moves the tracer to. */
  function NextPhase(ph: Phase, probe: Probe): (next: Phase)
    ensures next != Unprobed
    ensures ph != Unprobed ==> next == ph
    ensures ph == Unprobed ==> (next == Active <==> Activates(probe))
  {
    match ph
    case Unprobed => if Activates(probe) then Active else Inactive
    case _ => ph
  }

  /** The state after a sequence of hook calls, each with the probe it would see. */
  function Run(ph: Phase, probes: seq<Probe>): Phase
    decreases |probes|
  {
    if probes == [] then ph else Run(NextPhase(ph, probes[0]), probes[1..])
  }

  /** How many of those hook calls run the initialisation. */
  function Inits(ph: Phase, probes: seq<Probe>): nat
    decreases |probes|
  {
    if probes == [] then 0
    else (if ph == Unprobed then 1 else 0) + Inits(NextPhase(ph, probes[0]), probes[1..])
  }

  /** Once the tracer is active or inactive, no sequence of hook calls changes that, nor initialises again. */
  lemma {:induction false} SettledStays(ph: Phase, probes: seq<Probe>)
    requires ph != Unprobed
    decreases |probes|
    ensures Run(ph, probes) == ph
    ensures Inits(ph, probes) == 0
  {
    if probes != [] {
      SettledStays(ph, probes[1..]);
    }
  }

  /**
   Initialisation runs at most once in any run: exactly once if there is any hook
   call and the tracer has not been probed yet, and the first call's probe alone
   decides the final state.
   */
  lemma InitAtMostOnce(ph: Phase, probes: seq<Probe>)
    ensures Inits(ph, probes) == (if ph == Unprobed && probes != [] then 1 else 0)
    ensures ph == Unprobed && probes != [] ==> Run(ph, probes) == NextPhase(ph, probes[0])
  {
    if ph != Unprobed {
      SettledStays(ph, probes);
    } else if probes != [] {
      SettledStays(NextPhase(ph, probes[0]), probes[1..]);
    }
  }

  class Tracer {
    /** The `PTRACE_REFERENCE_FUNCTION` macro, fixed when the tracer is built. */
    const reference: Option<RefFunction>

    var first: bool
    var active: bool
    /** `__GNU_PTRACE_FILE__ != NULL`. */
    var traceOpen: bool
    /** `atexit(gnu_ptrace_close)` has been done. */
    var closeRegistered: bool
    var offset: Addr
    /** What this process has appended to the trace file. */
    var log: seq<Record>
    var stderr: seq<string>
    var stdout: seq<string>

    /** Every hook call so far, in order. */
    ghost var calls: seq<Call>
    /** How many times `gnu_ptrace_init` has run. */
    ghost var inits: nat
    /** The process id the finalizer wrote, once it has run. */
    ghost var ended: Option<int>

    function State(): Phase
      reads this
    {
      if !active then Inactive else if first then Unprobed else Active
    }

    ghost predicate Valid()
      reads this
    {
      && (first ==> active && calls == [] && offset == 0 && stderr == [] && stdout == [])
      && inits == (if first then 0 else 1)
      && (traceOpen <==> !first && active)
      && (closeRegistered <==> traceOpen)
      && (ended.Some? ==> traceOpen)
      && (traceOpen ==> log == Session(reference, calls, offset, ended))
      && (!traceOpen ==> log == [])
    }

    /** The static state at program start. */
    constructor (reference: Option<RefFunction>)
      ensures Valid() && State() == Unprobed
      ensures this.reference == reference
      ensures !traceOpen && !closeRegistered && log == [] && stderr == [] && stdout == []
      ensures calls == [] && ended == None
    {
      this.reference := reference;
      first, active := true, true;
      traceOpen, closeRegistered := false, false;
      offset := 0;
      log, stderr, stdout := [], [], [];
      calls, inits, ended := [], 0, None;
    }

    /** `gnu_ptrace_init`: probe for the marker file, open it, write the reference line, register the finalizer. */
    method Init(probe: Probe) returns (ok: bool)
      requires first && active && !traceOpen && !closeRegistered && ended == None
      requires log == [] && stderr == [] && stdout == []
      modifies this`traceOpen, this`closeRegistered, this`offset, this`log, this`stderr, this`stdout, this`inits
      ensures ok == Activates(probe)
      ensures traceOpen == ok && closeRegistered == ok
      ensures offset == (if ok then probe.mapsOffset else old(offset))
      ensures log == (if ok then Header(reference) else [])
      ensures stderr == (if probe.markerExists && !probe.openOk then [PerrorLine(probe.errText, probe.errText)] else [])
      ensures stdout == (if probe.markerExists && !probe.openOk then [ERROR_BANNER] else [])
      ensures inits == old(inits) + 1
    {
      inits := inits + 1;
      traceOpen := false;
      if !probe.markerExists {
        // no trace file: do not trace at all
        return false;
      }
      if !probe.openOk {
        stderr := stderr + [PerrorLine(probe.errText, probe.errText)];
        stdout := stdout + [ERROR_BANNER];
        return false;
      }
      traceOpen := true;
      match reference {
        case Some(f) => log := log + [Reference(f.name, f.addr)];
        case None =>
      }
      closeRegistered := true;
      offset := probe.mapsOffset;
      return true;
    }

    /**
     What one hook call does, from the state it finds: when inactive, nothing;
     when active, it appends one event whose address is rebased by the offset;
     when not yet probed, it initialises from `probe` and, if that activates the
     tracer, appends the triggering call's event right after the header.
     */
    twostate predicate Emits(what: Kind, p: Addr, probe: Probe)
      reads this
    {
      var was := old(State());
      && calls == old(calls) + [Call(what, p)]
      && State() == NextPhase(old(State()), probe)
      && inits == old(inits) + (if was == Unprobed then 1 else 0)
      && (was == Inactive ==>
            log == old(log) && offset == old(offset) && stderr == old(stderr) && stdout == old(stdout))
      && (was == Active ==>
            log == old(log) + [Event(what, Rebase(p, offset))] &&
            offset == old(offset) && stderr == old(stderr) && stdout == old(stdout))
      && (was == Unprobed ==>
            && offset == (if Activates(probe) then probe.mapsOffset else old(offset))
            && log == (if Activates(probe) then Header(reference) + [Event(what, Rebase(p, probe.mapsOffset))] else [])
            && stderr == (if probe.markerExists && !probe.openOk then [PerrorLine(probe.errText, probe.errText)] else [])
            && stdout == (if probe.markerExists && !probe.openOk then [ERROR_BANNER] else []))
    }

    /** `gnu_ptrace`: the emission path shared by both hooks. */
    method Emit(what: Kind, p: Addr, probe: Probe)
      requires Valid() && ended == None
      modifies this`first, this`active, this`traceOpen, this`closeRegistered, this`offset
      modifies this`log, this`stderr, this`stdout, this`calls, this`inits
      ensures Valid() && ended == None
      ensures Emits(what, p, probe)
    {
      calls := calls + [Call(what, p)];
      if !active {
        return;
      }
      if first {
        var ok := Init(probe);
        active := ok;
        first := false;
        if !active {
          return;
        }
      }
      SessionSnoc(reference, old(calls), Call(what, p), offset);
      log := log + [Event(what, Rebase(p, offset))];
    }

    /** `__cyg_profile_func_enter`: tags the entered function `enter`; the call site is not recorded. */
    method FuncEnter(thisFn: Addr, callSite: Addr, probe: Probe)
      requires Valid() && ended == None
      modifies this`first, this`active, this`traceOpen, this`closeRegistered, this`offset
      modifies this`log, this`stderr, this`stdout, this`calls, this`inits
      ensures Valid() && ended == None
      ensures Emits(Enter, thisFn, probe)
    {
      Emit(Enter, thisFn, probe);
    }

    /** `__cyg_profile_func_exit`: tags the exited function `exit`; the call site is not recorded. */
    method FuncExit(thisFn: Addr, callSite: Addr, probe: Probe)
      requires Valid() && ended == None
      modifies this`first, this`active, this`traceOpen, this`closeRegistered, this`offset
      modifies this`log, this`stderr, this`stdout, this`calls, this`inits
      ensures Valid() && ended == None
      ensures Emits(Exit, thisFn, probe)
    {
      Emit(Exit, thisFn, probe);
    }

    /** `gnu_ptrace_close`: the finalizer writes `EXIT <pid>` and closes the trace file. */
    method Close(pid: int)
      requires Valid() && closeRegistered && ended == None
      modifies this`log, this`ended
      ensures Valid() && ended == Some(pid)
      ensures log == old(log) + [End(pid)]
    {
      log := log + [End(pid)];
      ended := Some(pid);
      // `fclose` follows: the handle is never NULL here, since the finalizer is
      // registered only after a successful open.
    }

    /** Normal process termination: the finalizer runs if, and only if, it was registered. */
    method AtExit(pid: int)
      requires Valid() && ended == None
      modifies this`log, this`ended
      ensures Valid()
      ensures ended == (if closeRegistered then Some(pid) else None)
      ensures log == old(log) + (if closeRegistered then [End(pid)] else [])
    {
      if closeRegistered {
        Close(pid);
      }
    }
  }

  /**
   The log of a tracer in any reachable state: empty unless the trace file was
   traceOpen; otherwise a reference line only first and only when configured, an
   `EXIT` line only last and only after the finalizer, and the hook calls in
   between, recoverable in order given the offset.
   */
  lemma LogShape(t: Tracer)
    requires t.Valid()
    ensures !t.traceOpen ==> t.log == []
    ensures t.State() == Inactive ==> t.log == []
    ensures forall i :: 0 <= i < |t.log| && t.log[i].Reference? ==>
              i == 0 && t.reference == Some(RefFunction(t.log[i].name, t.log[i].addr))
    ensures forall i :: 0 <= i < |t.log| && t.log[i].End? ==> i == |t.log| - 1 && t.ended == Some(t.log[i].pid)
    ensures t.traceOpen ==> Replay(t.log, t.offset) == t.calls
  {
    if t.traceOpen {
      SessionShape(t.reference, t.calls, t.offset, t.ended);
      ReplaySession(t.reference, t.calls, t.offset, t.ended);
    }
  }
}
