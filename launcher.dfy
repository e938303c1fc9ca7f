/**
 * cloneandexecve: converts its keyword options, builds the argv and envp arrays and
 * the ExecTrampolineData record, clones a child that runs exec_trampoline on that
 * record (sharing the caller's memory and suspending the caller until the child
 * execs or dies), reaps the child if it is already gone, and turns the record into
 * the Python result.
 */
module Launcher {
  import opened Wrappers
  import opened Bits
  import opened Host
  import opened Converters
  import opened CStringArray
  import opened Trampoline
  import opened TrampolineFacts

  // ---------------------------------------------------------------------------
  // Options

  /** The keyword options after conversion. */
  datatype Options = Options(
    path: Bytes,
    args: Option<seq<Bytes>>,
    env: Option<seq<Bytes>>,
    signal: int,
    sibling: bool,
    searchPath: bool,
    setsid: bool,
    doublefork: bool,
    sigign: nat)

  /**
   * The raw keyword options. `path`, `args` and `env` are taken as already converted
   * to bytes (path_converter and bytes_list_converter are not part of this model).
   */
  datatype Keywords = Keywords(
    path: Bytes,
    args: Option<seq<Bytes>>,
    env: Option<seq<Bytes>>,
    signal: Arg,
    sibling: Arg,
    searchPath: Arg,
    setsid: Arg,
    doublefork: Arg,
    sigign: Arg)

  /** The outcome of argument parsing: the options, a refusal, or an undefined shift. */
  datatype Parsed = Parsed(options: Options) | ParseError | ParseUndefined(signum: int)

  /**
   * PyArg_ParseTupleAndKeywords with the "O&" converters of cloneandexecve, called in
   * the order of the format string; the first converter that fails ends parsing.
   */
  function ParseKeywords(k: Keywords): (p: Parsed)
    ensures p.Parsed? ==> -1 <= p.options.signal <= NSIG
  {
    var signal := SignalM1Convert(k.signal, -1);
    var sibling := BoolFalseConverter(k.sibling, false);
    var searchPath := BoolFalseConverter(k.searchPath, false);
    var setsid := BoolFalseConverter(k.setsid, false);
    var doublefork := BoolFalseConverter(k.doublefork, false);
    var sigign := SigignConvert(k.sigign);
    if !signal.ok || !sibling.ok || !searchPath.ok || !setsid.ok || !doublefork.ok then ParseError
    else match sigign
      case Refused => ParseError
      case UndefinedShift(n) => ParseUndefined(n)
      case Stored(mask) =>
        Parsed(Options(k.path, k.args, k.env, signal.out, sibling.out, searchPath.out,
                       setsid.out, doublefork.out, mask))
  }

  /** Leaving every keyword out gives the documented defaults. */
  lemma DefaultOptions(path: Bytes)
    ensures ParseKeywords(Keywords(path, None, None, Missing, Missing, Missing, Missing, Missing, Missing)) ==
            Parsed(Options(path, None, None, -1, false, false, false, false, 0))
  {
  }

  /** A parsed sigign mask fits the `uint64_t` it is stored in. */
  lemma ParsedMaskFits(k: Keywords)
    ensures ParseKeywords(k).Parsed? ==> ParseKeywords(k).options.sigign < ULLONG_LIMIT
  {
    StoredMaskFits(k.sigign);
  }

  /**
   * For sigign given as a list of numbers in 0 .. 31, the trampoline ignores exactly
   * the listed signals other than 0, SIGKILL and SIGSTOP.
   */
  lemma IgnoredSignalsAreListed(items: seq<PyObj>, n: int)
    requires AllMaskable(items)
    ensures Accumulate(items, 0, false).Stored?
    ensures n in IgnoreTargets(Accumulate(items, 0, false).mask, 0) <==>
            PyInt(n) in items && 0 < n && n != SIGKILL && n != SIGSTOP
  {
    IgnoreMaskFromSignals(items, false, 0);
    var mask := Accumulate(items, 0, false).mask;
    IgnoreTargetsMembers(mask, 0, n);
    if 0 < n {
      IgnoreMaskFromSignals(items, false, n - 1);
      if PyInt(n) in items {
        var i :| 0 <= i < |items| && items[i] == PyInt(n);
        assert IsMaskable(items[i]);
      }
    }
  }

  // ---------------------------------------------------------------------------
  // The record and the clone flags

  /** `(search_path ? 1 << ETD_SEARCH_PATH : 0) | (setsid ? ...) | (doublefork ? ...) | 0`. */
  function RecordFlags(opts: Options): nat {
    Or(Or(Or(if opts.searchPath then Pow2(ETD_SEARCH_PATH) else 0,
             if opts.setsid then Pow2(ETD_SETSID) else 0),
          if opts.doublefork then Pow2(ETD_DOUBLEFORK) else 0),
       0)
  }

  /** The record's flags hold exactly the bits of the requested options. */
  lemma RecordFlagBits(opts: Options, k: nat)
    ensures HasBit(RecordFlags(opts), k) <==>
            (k == ETD_SEARCH_PATH && opts.searchPath) ||
            (k == ETD_SETSID && opts.setsid) ||
            (k == ETD_DOUBLEFORK && opts.doublefork)
  {
    var a := if opts.searchPath then Pow2(ETD_SEARCH_PATH) else 0;
    var b := if opts.setsid then Pow2(ETD_SETSID) else 0;
    var c := if opts.doublefork then Pow2(ETD_DOUBLEFORK) else 0;
    HasBitOr(Or(Or(a, b), c), 0, k);
    HasBitOr(Or(a, b), c, k);
    HasBitOr(a, b, k);
    SingleBit(ETD_SEARCH_PATH, k);
    SingleBit(ETD_SETSID, k);
    SingleBit(ETD_DOUBLEFORK, k);
    NoBitOfZero(k);
  }

  /** `CLONE_VFORK | CLONE_VM`, plus `CLONE_PARENT` for a sibling. */
  function CloneFlags(sibling: bool): nat {
    var flags := Or(CLONE_VFORK, CLONE_VM);
    if sibling then Or(flags, CLONE_PARENT) else flags
  }

  lemma CloneConstants()
    ensures CLONE_VM == Pow2(8) && CLONE_VFORK == Pow2(14) && CLONE_PARENT == Pow2(15)
  {
    assert Pow2(4) == 16;
    assert Pow2(7) == 128;
    Pow2Add(4, 4);
    Pow2Add(8, 7);
    Pow2Add(7, 7);
  }

  /** The child always shares memory and suspends the caller; it is a sibling on request. */
  lemma CloneFlagBits(sibling: bool, k: nat)
    ensures HasBit(CloneFlags(sibling), k) <==> k == 8 || k == 14 || (sibling && k == 15)
  {
    CloneConstants();
    HasBitOr(Or(CLONE_VFORK, CLONE_VM), CLONE_PARENT, k);
    HasBitOr(CLONE_VFORK, CLONE_VM, k);
    SingleBit(8, k);
    SingleBit(14, k);
    SingleBit(15, k);
  }

  /** The grandchild of a double fork is cloned with the same flags as a plain child. */
  lemma DoubleforkCloneIsPlainClone()
    ensures DoubleforkCloneFlags() == CloneFlags(false)
  {
  }

  /** `static_argv_list`: the path alone, then NULL. */
  function StaticArgv(path: Bytes): seq<Option<Bytes>> {
    [Some(path), None]
  }

  /** The array in `argv_list`, or the static one when no args were given. */
  function ArgvArray(opts: Options, argv: ArrayResult): seq<Option<Bytes>> {
    if argv.Filled? then argv.contents else StaticArgv(opts.path)
  }

  /** The trampoline data as the launcher initialises it. */
  function InitialRecord(opts: Options, argv: ArrayResult, envp: ArrayResult): Record {
    Record(opts.path, UntilNull(ArgvArray(opts, argv)),
           if envp.Filled? then Some(UntilNull(envp.contents)) else None,
           RecordFlags(opts), opts.signal, opts.sigign, -1, None, -1)
  }

  /**
   * The child sees the given argv (the path alone by default) and env, the requested
   * parent-death signal and ignore mask, no pid yet and no failure.
   */
  lemma InitialRecordContents(o: Oracle, opts: Options, w: World)
    ensures var (w1, argv) := CStringArrayOf(o, opts.args, w);
            var (w2, envp) := CStringArrayOf(o, opts.env, w1);
            !argv.NoMemory? && !envp.NoMemory? ==>
            var r := InitialRecord(opts, argv, envp);
            r.path == opts.path && r.argv == opts.args.GetOr([opts.path]) && r.envp == opts.env &&
            r.parentSignal == opts.signal && r.sigign == opts.sigign &&
            r.childpid == -1 && r.fun == None && r.error == -1
  {
    var (w1, argv) := CStringArrayOf(o, opts.args, w);
    var (w2, envp) := CStringArrayOf(o, opts.env, w1);
    if opts.args.Some? {
      UntilNullTerminated(opts.args.value);
    } else {
      assert UntilNull(StaticArgv(opts.path)) == [opts.path] by {
        assert StaticArgv(opts.path)[1..] == [None];
      }
    }
    if opts.env.Some? {
      UntilNullTerminated(opts.env.value);
    }
  }

  // ---------------------------------------------------------------------------
  // The launch

  /** The Python-level result of cloneandexecve once its arguments were parsed. */
  datatype SpawnResult =
    | MemoryError                          // PyErr_NoMemory while building argv or envp
    | CloneFailed(errno: int)              // Exception: "clone failed with errno=%d"
    | StepFailed(fun: string, error: int)  // OSError: "clone successful, but %s failed with errno=%d"
    | Pid(pid: int)                        // the pid of the program, still running
    | NoneResult                           // None: the child was already reaped

  /** What the launcher makes of the record once the child has stopped running it. */
  function Report(d: Record, waited: bool): (r: SpawnResult)
    ensures r.StepFailed? <==> d.fun.Some?
    ensures r.StepFailed? ==> r.fun == d.fun.value && r.error == d.error
    ensures r.Pid? <==> d.fun.None? && !waited
    ensures r.Pid? ==> r.pid == d.childpid
    ensures !r.MemoryError? && !r.CloneFailed?
  {
    if d.fun.Some? then StepFailed(d.fun.value, d.error)
    else if !waited then Pid(d.childpid)
    else NoneResult
  }

  /**
   * waitpid(childprocess, NULL, WNOHANG) > 0, once more when the record names a
   * different pid (the grandchild of a double fork).
   */
  function Reap(o: Oracle, childprocess: int, d: Record, w: World): (r: (World, bool))
    ensures r.0.trace == w.trace + [Waitpid(childprocess)] +
                         (if d.childpid >= 0 && d.childpid != childprocess then [Waitpid(childprocess)] else [])
    ensures r.1 <==> o(r.0.trace[..|r.0.trace| - 1], Waitpid(childprocess)).ret > 0
  {
    var (w1, first) := Call(o, w, Waitpid(childprocess));
    if d.childpid >= 0 && d.childpid != childprocess then
      var (w2, second) := Call(o, w1, Waitpid(childprocess));
      (w2, second.ret > 0)
    else
      (w1, first.ret > 0)
  }

  /** From the clone on, for the record the launcher built. */
  function CloneRun(o: Oracle, record: Record, sibling: bool, w: World): (r: (World, SpawnResult))
    ensures r.1.CloneFailed? <==> o(w.trace, Clone(CloneFlags(sibling))).ret < 0
    ensures r.1.CloneFailed? ==>
              r.1.errno == o(w.trace, Clone(CloneFlags(sibling))).errno &&
              r.0.trace == w.trace + [Clone(CloneFlags(sibling))]
    ensures !r.1.MemoryError?
  {
    var (w1, clone) := Call(o, w, Clone(CloneFlags(sibling)));
    if clone.ret < 0 then (w1, CloneFailed(clone.errno))
    else
      var child := TrampolineRun(o, record, w1);
      var (w2, waited) := Reap(o, clone.ret, child.data, child.world);
      (w2, Report(child.data, waited))
  }

  /** cloneandexecve after argument parsing, on values. */
  function Spawn(o: Oracle, opts: Options, w: World): (r: (World, SpawnResult))
    ensures r.1.MemoryError? ==>
              |w.trace| <= |r.0.trace| && r.0.trace[..|w.trace|] == w.trace &&
              forall i :: |w.trace| <= i < |r.0.trace| ==> r.0.trace[i].Malloc?
  {
    var (w1, argv) := CStringArrayOf(o, opts.args, w);
    if argv.NoMemory? then (w1, MemoryError)
    else
      var (w2, envp) := CStringArrayOf(o, opts.env, w1);
      if envp.NoMemory? then (w2, MemoryError)
      else CloneRun(o, InitialRecord(opts, argv, envp), opts.sibling, w2)
  }

  /** cloneandexecve after argument parsing, on the host. */
  method CloneAndExecve(opts: Options, host: Host) returns (result: SpawnResult)
    modifies host
    ensures (host.View(), result) == Spawn(host.oracle, opts, old(host.View()))
  {
    var argvList, argvNoMemory := BytesListToCStringArray(opts.args, host);
    if argvNoMemory {
      return MemoryError;
    }
    var envpList, envpNoMemory := BytesListToCStringArray(opts.env, host);
    if envpNoMemory {
      return MemoryError;
    }
    var argv := if argvList.Array? then argvList.a[..] else StaticArgv(opts.path);
    var envp := if envpList.Array? then Some(UntilNull(envpList.a[..])) else None;
    var data := new ExecTrampolineData(
      Record(opts.path, UntilNull(argv), envp, RecordFlags(opts), opts.signal, opts.sigign, -1, None, -1));
    result := CloneAndWait(data, opts.sibling, host);
  }

  /** The clone, the child's run, the reaping and the result. */
  method CloneAndWait(data: ExecTrampolineData, sibling: bool, host: Host) returns (result: SpawnResult)
    modifies data, host
    ensures (host.View(), result) == CloneRun(host.oracle, old(data.Snapshot()), sibling, old(host.View()))
  {
    var childprocess := host.Do(Clone(CloneFlags(sibling)));
    if childprocess < 0 {
      var code := host.errno;
      return CloneFailed(code);
    }
    // CLONE_VFORK: the child runs the trampoline on `data` before clone returns here.
    var _ := data.ExecTrampoline(host);
    var waitpid_result := host.Do(Waitpid(childprocess));
    var waited := waitpid_result > 0;
    if data.childpid >= 0 && data.childpid != childprocess {
      waitpid_result := host.Do(Waitpid(childprocess));
      waited := waitpid_result > 0;
    }
    if data.fun.Some? {
      return StepFailed(data.fun.value, data.error);
    }
    if !waited {
      return Pid(data.childpid);
    }
    return NoneResult;
  }

  // ---------------------------------------------------------------------------
  // What the caller learns

  /** A failed clone raises the clone's errno, and no child ever ran. */
  lemma CloneFailureReported(o: Oracle, record: Record, sibling: bool, w: World)
    requires o(w.trace, Clone(CloneFlags(sibling))).ret < 0
    ensures CloneRun(o, record, sibling, w) ==
            (World(w.trace + [Clone(CloneFlags(sibling))], o(w.trace, Clone(CloneFlags(sibling))).errno),
             CloneFailed(o(w.trace, Clone(CloneFlags(sibling))).errno))
  {
  }

  /**
   * A child that needs no double fork and whose setsid, prctl and signal(n, SIG_IGN)
   * calls all succeed reaches the exec: a failed exec is raised under the exec's name
   * with its errno; a successful one yields the pid getpid returned, or None when
   * waitpid already reaped the child.
   */
  lemma ExecOutcome(o: Oracle, record: Record, sibling: bool, w: World)
    requires !HasBit(record.flags, ETD_DOUBLEFORK) && record.fun == None
    requires o(w.trace, Clone(CloneFlags(sibling))).ret >= 0
    requires SetupSucceeds(o, record, Call(o, w, Clone(CloneFlags(sibling))).0)
    requires !IgnoreAll(o, IgnoreTargets(record.sigign, 0), AfterSetup(o, record, Call(o, w, Clone(CloneFlags(sibling))).0)).1
    ensures var (w1, _) := Call(o, w, Clone(CloneFlags(sibling)));
            var wi := IgnoreAll(o, IgnoreTargets(record.sigign, 0), AfterSetup(o, record, w1)).0;
            var (w2, pid) := Call(o, wi, Getpid);
            var call := Exec(ExecVariantOf(record), record.path, record.argv, record.envp);
            var reply := o(w2.trace, call);
            var result := CloneRun(o, record, sibling, w).1;
            (ExecReturned(reply.ret) ==> result == StepFailed(ExecName(ExecVariantOf(record)), reply.errno)) &&
            (!ExecReturned(reply.ret) ==> (result.Pid? || result.NoneResult?) && (result.Pid? ==> result.pid == pid.ret))
  {
    var (w1, _) := Call(o, w, Clone(CloneFlags(sibling)));
    SetupReachesIgnoreStep(o, record, w1);
    ExecStep(o, SetupRecord(record), AfterSetup(o, record, w1));
  }

  /** The exec the options select: with env or not, searching PATH or not. */
  function OptionsVariant(opts: Options): ExecVariant {
    if opts.env.Some? then (if opts.searchPath then Execvpe else Execve)
    else (if opts.searchPath then Execvp else Execv)
  }

  /** Without setsid, pdeathsignal, doublefork or sigign, only the exec can be reported as failed. */
  lemma PlainSpawnReportsOnlyExec(o: Oracle, opts: Options, w: World)
    requires !opts.setsid && !opts.doublefork && opts.signal == -1 && opts.sigign == 0
    ensures Spawn(o, opts, w).1.StepFailed? ==> Spawn(o, opts, w).1.fun == ExecName(OptionsVariant(opts))
  {
    var (w1, argv) := CStringArrayOf(o, opts.args, w);
    var (w2, envp) := CStringArrayOf(o, opts.env, w1);
    if !argv.NoMemory? && !envp.NoMemory? {
      var record := InitialRecord(opts, argv, envp);
      InitialRecordContents(o, opts, w);
      RecordFlagBits(opts, ETD_SETSID);
      RecordFlagBits(opts, ETD_DOUBLEFORK);
      RecordFlagBits(opts, ETD_SEARCH_PATH);
      if o(w2.trace, Clone(CloneFlags(opts.sibling))).ret >= 0 {
        var w3 := Call(o, w2, Clone(CloneFlags(opts.sibling))).0;
        assert AfterSetup(o, record, w3) == w3;
        assert IgnoreTargets(record.sigign, 0) == [];
        ExecOutcome(o, record, opts.sibling, w2);
      }
    }
  }

  /**
   * With doublefork, a failure of the grandchild (its signal() or exec calls) never
   * reaches the caller: only setsid, prctl or the second clone can be reported.
   */
  lemma DoubleforkHidesGrandchildFailures(o: Oracle, opts: Options, w: World)
    requires opts.doublefork
    ensures Spawn(o, opts, w).1.StepFailed? ==>
            Spawn(o, opts, w).1.fun in {"setsid", "PR_SET_PDEATHSIG", "clone(doublefork)"}
  {
    var (w1, argv) := CStringArrayOf(o, opts.args, w);
    var (w2, envp) := CStringArrayOf(o, opts.env, w1);
    if !argv.NoMemory? && !envp.NoMemory? {
      var record := InitialRecord(opts, argv, envp);
      RecordFlagBits(opts, ETD_DOUBLEFORK);
      var (w3, clone) := Call(o, w2, Clone(CloneFlags(opts.sibling)));
      if clone.ret >= 0 {
        DoubleforkAlwaysKilled(o, record, w3);
      }
    }
  }
}
