/**
 Whole runs of an instrumented program, as clients of the tracer: each starts a
 fresh tracer, makes well-nested hook calls and terminates the process.
 */
module Scenarios {
  import opened Records
  import opened Ptrace

  /** No marker file: three nested calls and the exit leave no trace and no diagnostic. */
  method MarkerAbsent(f: Addr, g: Addr, h: Addr, pid: int, probe: Probe) returns (t: Tracer)
    requires !probe.markerExists
    ensures t.log == [] && t.stderr == [] && t.stdout == []
    ensures !t.traceOpen && t.State() == Inactive
  {
    t := new Tracer(None);
    t.FuncEnter(f, 0, probe);
    assert t.State() == Inactive && t.log == [] && t.stderr == [] && t.stdout == [];
    t.FuncEnter(g, f, probe);
    t.FuncEnter(h, g, probe);
    t.FuncExit(h, g, probe);
    t.FuncExit(g, f, probe);
    t.FuncExit(f, 0, probe);
    t.AtExit(pid);
  }

  /** Marker file present, no reference function: `f` calls `g`. */
  method Traced(f: Addr, g: Addr, pid: int, probe: Probe) returns (t: Tracer)
    requires Activates(probe)
    ensures var off := probe.mapsOffset;
      t.log == [Event(Enter, Rebase(f, off)), Event(Enter, Rebase(g, off)),
                Event(Exit, Rebase(g, off)), Event(Exit, Rebase(f, off)), End(pid)]
    ensures t.stderr == [] && t.stdout == []
  {
    var off := probe.mapsOffset;
    var ef, eg := Event(Enter, Rebase(f, off)), Event(Enter, Rebase(g, off));
    var xf, xg := Event(Exit, Rebase(f, off)), Event(Exit, Rebase(g, off));
    t := new Tracer(None);
    t.FuncEnter(f, 0, probe);
    assert t.State() == Active && t.offset == off && t.log == [ef];
    t.FuncEnter(g, f, probe);
    assert t.State() == Active && t.offset == off && t.log == [ef, eg];
    t.FuncExit(g, f, probe);
    assert t.State() == Active && t.offset == off && t.log == [ef, eg, xg];
    t.FuncExit(f, 0, probe);
    assert t.closeRegistered && t.log == [ef, eg, xg, xf];
    t.AtExit(pid);
  }

  /** Marker file present and a reference function configured: its line comes first, with its raw address. */
  method TracedWithReference(fn: RefFunction, f: Addr, pid: int, probe: Probe) returns (t: Tracer)
    requires Activates(probe)
    ensures var off := probe.mapsOffset;
      t.log == [Reference(fn.name, fn.addr), Event(Enter, Rebase(f, off)), Event(Exit, Rebase(f, off)), End(pid)]
  {
    t := new Tracer(Some(fn));
    t.FuncEnter(f, 0, probe);
    t.FuncExit(f, 0, probe);
    t.AtExit(pid);
  }

  /** The trace file cannot be opened: one diagnostic on each output stream, no trace line, no finalizer. */
  method OpenFails(f: Addr, g: Addr, pid: int, probe: Probe) returns (t: Tracer)
    requires probe.markerExists && !probe.openOk
    ensures t.log == [] && !t.closeRegistered && t.State() == Inactive
    ensures t.stderr == [PerrorLine(probe.errText, probe.errText)]
    ensures t.stdout == [ERROR_BANNER]
  {
    t := new Tracer(None);
    t.FuncEnter(f, 0, probe);
    t.FuncEnter(g, f, probe);
    t.FuncExit(g, f, probe);
    t.FuncExit(f, 0, probe);
    t.AtExit(pid);
  }
}
