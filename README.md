# pdeathsignal in Dafny

A model of the core of `pdeathsignal`, a Python extension for Linux. It sets or reads
the *parent-death signal* of the calling process, and it launches a program whose
parent-death signal is already in place.

The launcher, `cloneandexecve`, works as follows:
- It converts its keyword options.
- It builds the NULL-terminated `argv` and `envp` arrays.
- It fills an `ExecTrampolineData` record.
- It clones a child with `CLONE_VM | CLONE_VFORK`. The child runs `exec_trampoline` on that record, in order:
  1. `setsid()`;
  2. `prctl(PR_SET_PDEATHSIG)`;
  3. an optional double fork;
  4. `signal(n, SIG_IGN)` for every signal in an ignore mask;
  5. `getpid()`;
  6. one of `execvpe`, `execve`, `execvp` and `execv`.

  The first failure is written into the record, and the child then kills itself.
- Back in the caller, it reaps the child if the child is already gone. It then turns the record into the Python result.

The Rust part of the extension (`src/lib.rs`) wraps the 31 standard Linux signals in a frozen `Signal` class. That class has:
- names and representations;
- integer conversions;
- a constructor;
- module-level `get`/`set`.

Every `Signal` object comes from a table of 32 wrapper objects that is built once.

## How it is modelled

Modules:
- **`Host`** (host.dfy): the kernel and C runtime.
  - Every call (`malloc`, `setsid`, `prctl`, `clone`, `signal`, `getpid`, `exec*`, `raise(SIGKILL)`, `waitpid`) goes to an *oracle*. The oracle sees the whole history of calls and answers with a return value and the new `errno`.
  - The proofs therefore hold for every behaviour of the kernel.
  - A `World` is the trace of calls made so far plus the current `errno`. There is one `errno` for the caller, the child and the grandchild, because `CLONE_VM` without `CLONE_SETTLS` shares thread-local storage.
  - The class `Host` is the same world as an object whose methods make the calls.
- **`Bits`** (bits.dfy): bit masks (`flags`, `sigign`, clone flags) as natural numbers, with `HasBit`, `Or`, `ClearBit` and their laws.
- **`Converters`** (converters.dfy): the `O&` converters as functions on a small model of Python objects. `sigign_converter` is also a method with the source's loop, proved against that function.
- **`CStringArray`** (cstring_array.dfy): `bytes_list_to_cstring_array`, as a method that fills a Dafny `array`.
- **`Trampoline`** (trampoline.dfy): `exec_trampoline`. The whole run is stated as functions on a `Record` value. The class `ExecTrampolineData` has the record's fields and performs the same run step by step on them. Each of its methods is proved equal to the matching function.
- **`TrampolineFacts`** (trampoline_facts.dfy): what the run guarantees.
- **`Launcher`** (launcher.dfy): `cloneandexecve_impl` after argument parsing, as a function `Spawn` and as a method `CloneAndExecve` proved equal to it.
- **`Signals`** (signals.dfy): `src/lib.rs`.
  - The `Signal` datatype has the Linux numbers of signal(7).
  - `str`/`repr`, the class attributes and the numeric conversions are functions.
  - `set`, `__new__` and `do_get` are modelled, and `make_signals` is a method that allocates the wrapper objects.
  - The `OnceLock` cache is a class with a one-shot cell.

How the concurrency is handled:
- `CLONE_VFORK` suspends the caller until the child execs or dies. The model therefore runs the child to completion inside the caller's `clone` step.
- The grandchild of a double fork runs the same way inside the intermediate child's `clone`.

## Model

| member | source | states |
|---|---|---|
| Converters.PyLongToSignum | pdeathsignal.c:226-244 | succeeds exactly for an integer in 0 .. _NSIG and then yields that value; on failure the output keeps its previous value |
| Converters.SignalXConvert | pdeathsignal.c:247-254 | an absent or None argument yields the default x; anything else is pylong_to_signum's verdict |
| Converters.Signal0Convert | pdeathsignal.c:256-258 | succeeds iff the argument is absent or a signal number; an absent one gives 0, a present one its own value, and a failure leaves the output alone |
| Converters.SignalM1Convert | pdeathsignal.c:260-262 | succeeds iff absent or a signal number; an absent one gives -1, a present one its own value (never -1), and a failure leaves the output alone |
| Converters.BoolFalseConverter | pdeathsignal.c:212-223 | absent is false; otherwise the object's truth value; fails (output untouched) only when truth testing raises |
| Converters.SigignConvert | pdeathsignal.c:265-336 | None or a falsy object gives mask 0; an int in 0 .. 2^64-1 is stored unchanged without iterating; a negative or too large int, or an object that cannot be truth-tested, is refused |
| Converters.SigignConverter | pdeathsignal.c:265-336 | the loop over the iterator computes exactly SigignConvert, and the output is written only when the conversion succeeds |
| Converters.AccumulateMaskable | pdeathsignal.c:299-335 | for elements in 0 .. 31 the loop ORs in exactly the mask of the elements, and stores it unless the iterator ends with an error |
| Converters.MaskOfMembers | pdeathsignal.c:326-328 | bit k of the mask is set exactly when k + 1 is one of the elements |
| Converters.IgnoreMaskFromSignals | pdeathsignal.c:299-335 | the iterable path stores a mask whose bit k is set iff signal k + 1 was listed |
| Converters.FirstUnmaskableDecides | pdeathsignal.c:321-328 | the first element outside 0 .. 31 decides: not a signal number means refused, 32 .. _NSIG means the undefined shift; later elements do not matter |
| Converters.DuplicateIsNoOp | pdeathsignal.c:321-328 | listing a signal again anywhere after its first listing gives the same outcome as listing it once |
| Converters.ZeroIsNoOp | pdeathsignal.c:326-328 | a 0 element anywhere changes nothing |
| Converters.MaskOfBound | pdeathsignal.c:327 | the iterable path only sets bits 0 .. 30 |
| Converters.StoredMaskFits | pdeathsignal.c:290-291 | every stored mask fits the uint64_t output |
| CStringArray.UntilNullTerminated | pdeathsignal.c:175-179 | reading the array up to its first NULL, as exec does, gives back exactly the list |
| CStringArray.TerminatedShape | pdeathsignal.c:175-179 | slot i holds string i and the slot after the last string is NULL |
| CStringArray.BytesListToCStringArray | pdeathsignal.c:164-183 | no list gives NULL without error; a failed allocation of 8 * (n + 1) bytes gives NULL and MemoryError; otherwise a fresh array holding the strings in order and a final NULL |
| Trampoline.TrampolineRun | pdeathsignal.c:397-409 | the run never writes path, argv or envp, and a run ending in a replaced image leaves fun untouched |
| Trampoline.RunAfterSetsid | pdeathsignal.c:411-418 | the same, from the parent-death signal on |
| Trampoline.RunAfterPdeathsig | pdeathsignal.c:420-428 | the same, from the double fork on, through the grandchild's run |
| Trampoline.RunAfterDoublefork | pdeathsignal.c:430-469 | sigign is zeroed, path, argv and envp are kept, and a replaced image leaves fun untouched and used the record's exec variant |
| Trampoline.IgnoreOutcome | pdeathsignal.c:430-449 | the block only appends signal(n, SIG_IGN) calls for n other than SIGKILL and SIGSTOP, and a failure means the last of them returned SIG_ERR |
| Trampoline.IgnoreLoop | pdeathsignal.c:432-448 | the remaining loop only calls signal(n, SIG_IGN) for n above the current signum other than SIGKILL and SIGSTOP, and a failure means the last call returned SIG_ERR |
| Trampoline.ExecTrampolineData.constructor | pdeathsignal.c:384-394 | the record holds the fields it was initialised with |
| Trampoline.ExecTrampolineData.ExecTrampoline | pdeathsignal.c:397-409 | the run equals TrampolineRun: the SETSID bit is cleared before setsid() is called, and a -1 result goes to fail with "setsid" |
| Trampoline.ExecTrampolineData.AfterSetsid | pdeathsignal.c:411-418 | parent_signal is zeroed before prctl(PR_SET_PDEATHSIG, parent_signal) is called for a parent_signal >= 0, and a nonzero result fails with "PR_SET_PDEATHSIG" |
| Trampoline.ExecTrampolineData.AfterPdeathsig | pdeathsignal.c:420-428 | the DOUBLEFORK bit is cleared, the grandchild runs on the same record, and the intermediate always goes to fail, with "clone(doublefork)" iff its clone failed |
| Trampoline.ExecTrampolineData.AfterDoublefork | pdeathsignal.c:430-469 | the ignore loop, then childpid := getpid(), then the exec chosen by envp and SEARCH_PATH; a returning exec fails under its own name |
| Trampoline.ExecTrampolineData.IgnoreSignals | pdeathsignal.c:430-449 | sigign is zeroed before the loop and nothing else in the record changes; the calls and the failure flag are those of IgnoreOutcome |
| Trampoline.ExecTrampolineData.Fail | pdeathsignal.c:471-475 | fun and error := errno are written, then raise(SIGKILL) is called |
| TrampolineFacts.IgnoreLoopIsIgnoreAll | pdeathsignal.c:430-449 | the shift loop behaves like ignoring its list of targets one by one and stopping at the first SIG_ERR |
| TrampolineFacts.IgnoreTargetsMembers | pdeathsignal.c:436-443 | signal n is ignored exactly when its bit is set and it is neither SIGKILL nor SIGSTOP |
| TrampolineFacts.IgnoreTargetsIncreasing | pdeathsignal.c:434-438 | the signals are ignored in strictly increasing order |
| TrampolineFacts.IgnoreAllTrace | pdeathsignal.c:444-447 | with no failure every target is ignored; otherwise exactly a prefix of the targets is called, and the last of them returned SIG_ERR |
| TrampolineFacts.TrampolineEnds | pdeathsignal.c:397-476 | the trampoline never returns: its last call is raise(SIGKILL), or an exec that did not return, with the record's path, argv and envp and fun untouched |
| TrampolineFacts.AfterDoubleforkEnds | pdeathsignal.c:430-476 | from the ignore loop on, the run ends with raise(SIGKILL) or a successful exec |
| TrampolineFacts.SetsidFailureReported | pdeathsignal.c:401-407 | a failing setsid is reported as "setsid" with its errno, and its only further call is raise(SIGKILL) |
| TrampolineFacts.PdeathsigFailureReported | pdeathsignal.c:401-418 | a failing prctl, with or without a successful setsid before it, is reported as "PR_SET_PDEATHSIG" with its errno, after parent_signal was zeroed; the calls are the setsid if requested, the prctl and raise(SIGKILL) |
| TrampolineFacts.DoubleforkStep | pdeathsignal.c:420-428 | the intermediate child always kills itself and reports "clone(doublefork)" iff its clone failed, NULL otherwise, whatever the grandchild wrote; a failed clone is reported with its errno and followed only by raise(SIGKILL) |
| TrampolineFacts.DoubleforkClonesOnce | pdeathsignal.c:420-428 | after its successful clone, the double fork makes no further setsid() or clone() call: the grandchild runs a single pass |
| TrampolineFacts.DoubleforkAlwaysKilled | pdeathsignal.c:401-428 | with doublefork, the trampoline's own process never execs, and only NULL, "setsid", "PR_SET_PDEATHSIG" or "clone(doublefork)" can be reported |
| TrampolineFacts.GrandchildFlags | pdeathsignal.c:401-421 | the grandchild's record asks for neither setsid nor another fork, and keeps SEARCH_PATH |
| TrampolineFacts.SinglePassMakesNoSetsidOrClone | pdeathsignal.c:397-476 | a run that asks for neither setsid nor the double fork, as the grandchild's does, calls neither setsid() nor clone() |
| TrampolineFacts.SignalFailureReported | pdeathsignal.c:430-449 | the run reports "signal" exactly when a signal(n, SIG_IGN) failed, and then with that errno and sigign zeroed; getpid and the exec are skipped, childpid is untouched and only raise(SIGKILL) follows |
| TrampolineFacts.SetupReachesIgnoreStep | pdeathsignal.c:401-418 | without the double fork, a run whose requested setsid and prctl succeed reaches the ignore step having made exactly those calls, with the setsid bit cleared, parent_signal zeroed and the same exec variant |
| TrampolineFacts.ExecStep | pdeathsignal.c:430-469 | for any ignore mask whose signal() calls all succeed: after those calls, childpid holds getpid()'s result before the exec; a returning exec is reported under its name with its errno and followed only by raise(SIGKILL), and otherwise the image is replaced |
| TrampolineFacts.ExecNamesDiffer | pdeathsignal.c:453-469 | each of the four exec variants has a failure name of its own |
| Launcher.ParseKeywords | pdeathsignal.c:479-518 | the parsed parent-death signal is -1 or a number in 0 .. _NSIG |
| Launcher.DefaultOptions | pdeathsignal.c:485-491 | with every keyword left out: no args, no env, signal -1, all four switches false and an empty ignore mask |
| Launcher.ParsedMaskFits | pdeathsignal.c:491 | the parsed ignore mask fits a uint64_t |
| Launcher.IgnoredSignalsAreListed | pdeathsignal.c:430-449 | for sigign given as a list of numbers in 0 .. 31, the child ignores exactly the listed signals other than 0, SIGKILL and SIGSTOP |
| Launcher.RecordFlagBits | pdeathsignal.c:536-541 | the record's flags hold exactly the SEARCH_PATH, SETSID and DOUBLEFORK bits of the requested options |
| Launcher.CloneConstants | pdeathsignal.c:546-548 | CLONE_VM, CLONE_VFORK and CLONE_PARENT are single bits 8, 14 and 15 |
| Launcher.CloneFlagBits | pdeathsignal.c:546-549 | the clone flags are CLONE_VFORK and CLONE_VM, plus CLONE_PARENT exactly for a sibling |
| Launcher.DoubleforkCloneIsPlainClone | pdeathsignal.c:423 | the grandchild is cloned with the flags of a non-sibling child |
| Launcher.InitialRecordContents | pdeathsignal.c:530-545 | the child sees the given argv, or the path alone by default, the given env, the requested signal and mask, childpid -1, fun NULL and error -1 |
| Launcher.Report | pdeathsignal.c:562-579 | a failure name in the record is raised with the record's errno; otherwise the pid when the child was not reaped, None when it was |
| Launcher.Reap | pdeathsignal.c:557-560 | one waitpid(WNOHANG), a second one exactly when childpid is set and differs from the cloned pid; reaped means the last one returned a positive pid |
| Launcher.CloneRun | pdeathsignal.c:546-579 | the clone fails exactly when it returns a negative pid, and is then raised with its errno after the clone alone; no path from here gives MemoryError |
| Launcher.Spawn | pdeathsignal.c:520-587 | MemoryError is given only when allocations alone were made: no clone or child call happened |
| Launcher.CloneAndExecve | pdeathsignal.c:520-587 | the calls made and the result are those of Spawn: out of memory for argv or envp gives MemoryError before any clone |
| Launcher.CloneAndWait | pdeathsignal.c:546-580 | the calls made and the result are those of CloneRun: clone, the child's run, one waitpid, a second one iff childpid >= 0 and differs from the clone's pid, then the report |
| Launcher.CloneFailureReported | pdeathsignal.c:550-555 | a failed clone raises with its errno, after the clone alone |
| Launcher.ExecOutcome | pdeathsignal.c:397-469 | for any parent signal, setsid option and ignore mask whose calls succeed, without the double fork: a failed exec is raised under its name with its errno; a successful one yields getpid()'s pid, or None when the child was reaped |
| Launcher.PlainSpawnReportsOnlyExec | pdeathsignal.c:557-570 | without setsid, signal, doublefork and sigign, only the exec the options select can be reported as failed |
| Launcher.DoubleforkHidesGrandchildFailures | pdeathsignal.c:557-570 | with doublefork only "setsid", "PR_SET_PDEATHSIG" or "clone(doublefork)" can be reported; the grandchild's failures never reach the caller |
| Signals.Raw | src/lib.rs:288-290 | every signal's number lies in 1 .. 31 |
| Signals.FromRaw | src/lib.rs:313-318 | a signal exists exactly for 1 .. 31 |
| Signals.FromRawRaw | src/lib.rs:313-318 | reading back a signal's own number gives that signal |
| Signals.RawFromRaw | src/lib.rs:313-318 | the signal from_raw finds for n carries the number n |
| Signals.Str | src/lib.rs:216-250 | every name is at least five characters long and starts with "SIG" |
| Signals.ReprIsQualifiedStr | src/lib.rs:252-286 | for every signal, repr is "pdeathsignal.Signal." followed by str |
| Signals.Repr | src/lib.rs:252-286 | every repr starts with "pdeathsignal.Signal." and has a name after it |
| Signals.StrInjective | src/lib.rs:216-250 | no two signals have the same str |
| Signals.ClassAttributeEntry | src/lib.rs:29-214 | there are 31 class attributes; attribute i names the signal numbered i + 1 by its str |
| Signals.ClassAttributeOfStr | src/lib.rs:29-214 | the class attribute named by a signal's str wraps exactly that signal |
| Signals.AsIndex | src/lib.rs:288-290 | `__index__` gives a number that maps back to the same signal |
| Signals.AsInt | src/lib.rs:292-294 | `__int__` gives a number that maps back to the same signal |
| Signals.Positive | src/lib.rs:296-298 | `__pos__` gives a number that maps back to the same signal |
| Signals.Negative | src/lib.rs:300-302 | `__neg__` gives a negative number whose negation maps back to the same signal |
| Signals.NumericConversions | src/lib.rs:288-302 | index, int and pos give the signal's number and neg its negation; the number maps back to the same signal |
| Signals.ExtractEither | src/lib.rs:305-308 | a Signal object extracts as itself, an int that fits i32 as that int; nothing else extracts, and a refusal is a TypeError |
| Signals.ExtractOptional | src/lib.rs:345 | Python None, and only None, extracts as no signal |
| Signals.PrctlArgument | src/lib.rs:368-371 | do_set hands prctl 0 exactly for no signal, and otherwise the signal's own number in 1 .. 31 |
| Signals.DoSet | src/lib.rs:368-371 | exactly one prctl(PR_SET_PDEATHSIG) call; Ok exactly when it returns 0, otherwise OSError with its errno |
| Signals.Set | src/lib.rs:343-358 | the world is left untouched exactly when the argument is refused (TypeError or ValueError); otherwise exactly one prctl call with a number in 0 .. 31 |
| Signals.SetMethod | src/lib.rs:326-328 | Signal.set() does what set(signal) does: one prctl with the signal's number |
| Signals.SetRequest | src/lib.rs:345-358 | None and 0 clear; a Signal object passes its signal through; a valid int maps to its signal; any other int is a ValueError carrying that number |
| Signals.SetCalls | src/lib.rs:345-358 | a refused argument makes no call at all; otherwise exactly one prctl: 0 for None and 0, the signal's number otherwise |
| Signals.SetNumberIsSetObject | src/lib.rs:326-328 | set(n), set(Signal(n)) and Signal(n).set() do the same |
| Signals.SetZeroIsSetNone | src/lib.rs:347 | set(0) does what set(None) does |
| Signals.SignalTable | src/lib.rs:385-391 | the table has SIGNAL_COUNT = 32 slots |
| Signals.SignalTableIndexing | src/lib.rs:374-381 | from_signal's index is in bounds, and the slot it reads wraps that very signal |
| Signals.SignalTableFiller | src/lib.rs:385-391 | slot 0, the one no signal is numbered by, holds SIGHUP; slot i holds the signal numbered i |
| Signals.MakeSignals | src/lib.rs:385-391 | either 32 fresh objects, slot i wrapping signal i (SIGHUP in slot 0), or MemoryError exactly when an allocation fails |
| Signals.SignalCache.constructor | src/lib.rs:375-376 | the cache starts empty |
| Signals.SignalCache.FromSignal | src/lib.rs:374-381 | the first call fills the cell and later calls never change it; the result is the object in slot Raw(s), which wraps s, or the stored error, so repeated calls give the same object |
| Signals.New | src/lib.rs:304-319 | a Signal object comes back unchanged; a valid number gives the object in its slot of the cache, which wraps its signal, or the cache's stored MemoryError, and a first fill fails exactly when an allocation fails; any other i32 gives a ValueError without touching the cache |
| Signals.DoGet | src/lib.rs:360-366 | no signal gives None; a signal gives the object in its slot of the cache, or the cache's stored MemoryError, and a first fill fails exactly when an allocation fails; a failed prctl gives OSError carrying its errno |

## Left out

- The system calls themselves. `clone`, `setsid`, `prctl`, `signal`, `getpid`, the `exec*` family, `waitpid`, `raise` and `malloc` are answered by an oracle, so no kernel semantics are assumed. An exec that returns is one whose oracle reply is -1.
- Concurrency and memory layout are not modelled: `CLONE_VM` sharing, `CLONE_VFORK` suspension and the child stacks. The child runs sequentially inside the caller's `clone`. The launcher's static argv and the `child_stack` buffers are not modelled.
- CPython plumbing is not modelled: `PyArg_ParseTupleAndKeywords` beyond the order of its converters, reference counting, `pyfree`, `as_bytes`, `object_as_list_of_bytes`, `path_converter`, `bytes_list_converter` (UTF-8 and filesystem encoding), exception messages and module initialisation. `path`, `args` and `env` enter the model already as bytes.
- `getpdeathsignal_impl` and `setpdeathsignal_impl` are one-call `prctl` passthroughs. `int_or_errno` is not modelled either.
- `Converters.PyLongToSignum` does not model which exception is pending on failure, only the boolean outcome. For -1 the C code sets no exception of its own.
- `Converters.SigignConvert` makes an element n in 32 .. _NSIG an explicit `UndefinedShift(n)` outcome. `1 << (n - 1)` shifts a 32-bit `int` there, so the C standard gives no result to model. The bit-OR properties are stated only for elements 0 .. 31.
- Objects with `__index__` are not modelled. In Python 3, `PyLong_AsLong` in `pylong_to_signum` accepts such an object, including a `Signal` object, as the integer it gives. `PyLong_AsUnsignedLongLong` in the integer path of `sigign_converter` does not. The model's objects are only None, integers, iterables and objects that are neither, so a `Signal` object passed as `signal=` or inside `sigign=` is not covered.
- Only the Python 3 branches are modelled. In Python 2, `pylong_to_signum` uses `PyInt_AsLong`, and `sigign_converter` uses `PyInt_AsUnsignedLongLongMask`, which masks an out-of-range integer instead of refusing it. Neither is modelled.
- Embedded NUL bytes are not modelled. Arguments and environment strings reach exec as C strings, so one with an embedded NUL is cut short at that NUL. `CStringArray.UntilNullTerminated` states that the array's pointers give back the list, and the byte strings are passed whole. This is exact only for strings without a NUL.
- `Converters.PyLongToSignum` accepts 65 as a signal number, because the range test is `value > _NSIG` and _NSIG is 65 on Linux. This is modelled as written.
- Bit masks are natural numbers rather than 64-bit words. Every mask that is formed stays below 2^64 (`Converters.StoredMaskFits`), so no wrap-around is lost. The record's `unsigned flags` only ever holds bits 0 .. 2.
- `PyLong_AsUnsignedLongLong` on a Python `bool` or an `int` subclass is treated like a plain int. An iterable's elements are given as a finite sequence, followed by a clean end or an error.
- `Signals.FromRaw`: `Signal::from_raw` comes from the rustix crate, which is not part of this model. It is taken to be the Linux numbering of signal(7): exactly 1 .. 31.
- `Signals.DoSet` and `Signals.DoGet`: `set_parent_process_death_signal` is modelled as one `prctl(PR_SET_PDEATHSIG, n)` that fails when it returns nonzero. `parent_process_death_signal` enters `DoGet` as the result rustix hands back.
- `Signals.MakeSignals`: which allocations fail is a parameter. Python objects with `__index__` and `bool` arguments to `set`/`Signal()` are not singled out beyond `PyValue`.
- `OnceLock` thread-safety is not modelled: the cache is a single-threaded one-shot cell. PyO3 class registration and the free list are not modelled either.
- setup.py is build configuration only and is not part of this model.
