# etrace's tracer runtime (`ptrace.c`), modelled in Dafny

`ptrace.c` adds function-level tracing to any program compiled with gcc's
`-finstrument-functions`. gcc calls `__cyg_profile_func_enter` and
`__cyg_profile_func_exit` around every function. Both hooks go to
`gnu_ptrace`, which initialises itself on its first call. If a file named
`TRACE` exists, it opens that file for appending, writes an optional
`REFERENCE:` line, registers `gnu_ptrace_close` with `atexit` and reads the
code-segment offset. From then on it writes one `enter <addr>` or
`exit <addr>` line per call, with the address rebased by that offset. At
normal exit the finalizer writes `EXIT <pid>`. If the marker file is missing or
cannot be opened, the tracer stays inactive for the rest of the process.

The model has four modules:

- `Records` (`records.dfy`): the records of the trace file; the 64-bit
  `p - offset` rebasing and its inverse; `Session`, the log of one process;
  and `Replay`, what a reader recovers from a log.
- `Wire` (`wire.dfy`): the text of each line. Addresses printed with `%p`
  are a parameter `hex`. The `%ld` process id is rendered in full, together
  with its parser.
- `Ptrace` (`ptrace.dfy`): the state machine over `first`/`active` as pure
  functions (`NextPhase`, `Run`, `Inits`), and the class `Tracer`. Its fields
  are the source's statics: `first`, `active`, the file handle (`traceOpen`),
  the `atexit` registration (`closeRegistered`) and `offset`. It also holds
  what the process writes: `log` for the trace file, and `stderr`/`stdout`.
  Its methods are `gnu_ptrace_init`, `gnu_ptrace`, the two gcc hooks and
  `gnu_ptrace_close`. The invariant `Valid()` ties `log` to
  `Session(reference, calls, offset, ended)`. Here `calls` is the ghost
  history of hook calls and `ended` records whether the finalizer has run.
- `Scenarios` (`scenarios.dfy`): whole runs, written as clients of `Tracer`.
  They cover the marker absent, tracing with and without a reference
  function, and an open that fails.

The operating system is replaced by a `Probe` value passed to every hook
call. It gives the outcome of `stat("TRACE")`, of `fopen("TRACE", "a")`, the
`strerror` text and the offset read from `/proc/self/maps`. Only the call that
runs the initialisation reads it.

When the open fails, the code prints `perror(strerror(errno))` to standard
error and then `[gnu_ptrace error]` to standard output (`printf`). The model
keeps both streams separate, as the code does.

## Model

| member | source | states |
|---|---|---|
| Records.Rebase | src/ptrace.c:167 | The logged address is `p - offset` when `p >= offset`, and wraps around modulo 2^64 otherwise. Adding the offset back (`Unrebase`) always gives `p` again. |
| Records.SessionSnoc | src/ptrace.c:167-168 | In an open session that has not ended, one more hook call appends exactly its own event at the end of the log. |
| Records.SessionShape | src/ptrace.c:96-167 | In a session log, a `REFERENCE:` record can only be the first record. It is there exactly when a reference function is configured, and it carries the raw (not rebased) address. An `EXIT` record can only be the last record, and it is there exactly once the finalizer has run. Everything between is one event per hook call. |
| Records.ReplayTrace | src/ptrace.c:167-168 | Replaying the events written for a sequence of hook calls gives back those calls: the same tags, addresses and order. |
| Records.ReplaySession | src/ptrace.c:129-168 | Round trip over a whole session log, with or without its reference and `EXIT` lines: given the offset, a reader recovers exactly the hook calls in call order. |
| Wire.LineKeyword | src/ptrace.c:71-74 | The first word of every line is its record's keyword (`REFERENCE:`, `enter`, `exit`, `EXIT`), whatever the name and the address text are. |
| Wire.KeywordIdentifiesKind | src/ptrace.c:71-74 | Two lines have the same keyword if and only if their records are of the same kind and, for events, have the same tag. `exit` and `EXIT` differ. |
| Wire.DecimalRoundTrip | src/ptrace.c:96 | The `%ld` text of the process id contains no space and parses back to the same number, negative numbers included. |
| Wire.SessionText | src/ptrace.c:129-134 | In the text of a session, the reference line is the first line when a reference function is configured, and the `EXIT` line is the last line once the finalizer has run. |
| Ptrace.NextPhase | src/ptrace.c:152-165 | A hook call always leaves the tracer probed. An active or inactive tracer stays as it is. An unprobed tracer becomes active if and only if the marker exists and the open succeeds. |
| Ptrace.SettledStays | src/ptrace.c:155-156 | Once active or inactive, no sequence of hook calls changes the state or runs the initialisation again. |
| Ptrace.InitAtMostOnce | src/ptrace.c:158-162 | Over any sequence of hook calls, the initialisation runs exactly once if the tracer starts unprobed and there is at least one call, and never otherwise. The first call's probe alone decides the final state. |
| Ptrace.Tracer.constructor | src/ptrace.c:152-153 | At program start the tracer is unprobed (`first` and `active` set), the file is not open, and nothing has been written. |
| Ptrace.Tracer.Init | src/ptrace.c:104-145 | Succeeds if and only if the marker exists and the open succeeds. On success it opens the file, writes the reference line only when one is configured, registers the finalizer and takes the offset from the probe. With no marker it writes nothing anywhere. When the open fails it writes one `perror` line to standard error and the banner to standard output, with no trace record and no finalizer. |
| Ptrace.Tracer.Emit | src/ptrace.c:148-170 | Keeps `Valid()` and moves the state by `NextPhase`. When inactive it changes nothing. When active it appends exactly one event, `Event(what, p - offset)`. On the first call it initialises, and on success writes the header followed by this call's event. The ghost init counter rises only on the first call. |
| Ptrace.Tracer.FuncEnter | src/ptrace.c:177-183 | Has the effect of `Emit` with tag `enter` on the entered function. The call site is not used. |
| Ptrace.Tracer.FuncExit | src/ptrace.c:186-192 | Has the effect of `Emit` with tag `exit` on the exited function. The call site is not used. |
| Ptrace.Tracer.Close | src/ptrace.c:92-101 | Runs only after a successful open, and appends exactly one `EXIT <pid>` record. |
| Ptrace.Tracer.AtExit | src/ptrace.c:137 | At normal exit, the log gets `EXIT <pid>` if the finalizer was registered and is unchanged otherwise. |
| Ptrace.LogShape | src/ptrace.c:155-168 | For any reachable tracer: the log is empty unless the file was opened, so it is empty while inactive. `REFERENCE:` can only be first and `EXIT` only last. The log replays to the exact hook-call history. |
| Scenarios.MarkerAbsent | src/ptrace.c:113-117 | With no marker file, three nested calls and the exit leave the trace, standard error and standard output empty, and the tracer ends inactive. |
| Scenarios.Traced | src/ptrace.c:158-168 | With the marker and no reference function, `f` calling `g` gives exactly `enter f`, `enter g`, `exit g`, `exit f`, `EXIT pid`, with rebased addresses. |
| Scenarios.TracedWithReference | src/ptrace.c:129-134 | With a reference function, its line with the raw address comes before every event. |
| Scenarios.OpenFails | src/ptrace.c:121-127 | When the open fails: no trace record and no finalizer, one `perror` line on standard error, and the banner on standard output. |

## Left out

- Operating-system calls are not modelled: `stat`, `fopen`, `fclose`, `fflush`, `perror`, `strerror` and `getpid`. Their outcomes are inputs: the `Probe` fields and `Close`'s `pid`. `fclose` and `fflush` have no effect in the model.
- The read of `/proc/self/maps` (`fopen` and `fscanf` at src/ptrace.c:139-141) is not modelled. Its result is the probe's `mapsOffset`. The unchecked `fopen` there is not modelled.
- Write failures are not modelled. The return values of `fprintf` and `fflush` are ignored by the source, and the model assumes every write lands.
- Only this process's appends are modelled. The file is opened in append mode (it may also be a named pipe), so `log` leaves out anything already in it.
- The text `%p` prints for an address is implementation-defined, so it is the parameter `hex`. Addresses are 64-bit words.
- Thread safety is not modelled. The statics are unsynchronised in the source, and the model is sequential.
- The `atexit` machinery is not modelled. `AtExit` stands for normal process termination, and the model does not capture termination by signal.
- Emit: requires that the finalizer has not run yet. If an instrumented function ran from an exit handler called after `gnu_ptrace_close`, the source would `fprintf` to a closed stream, which is undefined behaviour and is not modelled.
- FuncEnter: same requirement as `Emit`, for the same reason.
- FuncExit: same requirement as `Emit`, for the same reason.
- Close: requires the finalizer to be registered, which implies the file is open. That is the only way the source reaches it. The `fprintf` at src/ptrace.c:96 comes before the NULL check at src/ptrace.c:98 and would fail on an unopened file.
- The runtime does not check that calls are well nested. The model proves only that the log keeps the tags and order of the hook calls (`ReplaySession`), so a log is as well nested as the calls that produced it.
- The gcc version guard, the `__no_instrument_function__` attributes and the `STR`/`DEF`/`GET` macros are not modelled. example/crumble.c is not part of this model: it is a demo workload with no tracer logic.
