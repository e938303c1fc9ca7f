/**
 * exec_trampoline: the function the cloned child runs before it becomes the new
 * program, and the ExecTrampolineData record it shares with the process that
 * cloned it.
 *
 * The child is created with CLONE_VM | CLONE_VFORK, so it writes into the caller's
 * record and the caller sleeps until the child has either replaced its image (a
 * successful exec) or died (raise(SIGKILL)). The caller learns what failed only
 * through the record's `fun` and `error` fields.
 *
 * `TrampolineRun` states the whole run as a function of the record and the world;
 * the class `ExecTrampolineData` performs the same run step by step on its fields.
 */
module Trampoline {
  import opened Wrappers
  import opened Bits
  import opened Host

  /** Bit numbers in ExecTrampolineData.flags. */
  const ETD_SEARCH_PATH: nat := 0
  const ETD_SETSID: nat := 1
  const ETD_DOUBLEFORK: nat := 2

  /** The flags the intermediate child clones the grandchild with. */
  function DoubleforkCloneFlags(): nat {
    Or(CLONE_VFORK, CLONE_VM)
  }

  /** ExecTrampolineData as a value; `fun` is NULL (None) or the name of a failed call. */
  datatype Record = Record(
    path: Bytes,
    argv: seq<Bytes>,
    envp: Option<seq<Bytes>>,
    flags: nat,
    parentSignal: int,
    sigign: nat,
    childpid: int,
    fun: Option<string>,
    error: int)

  /** How a trampoline ends: its image was replaced by exec, or it killed itself. */
  datatype Terminal = ImageReplaced | Killed

  /** The record and the world when the trampoline's process stops running it. */
  datatype Run = Run(data: Record, world: World, end: Terminal)

  /** Which exec the trampoline calls: with an environment or not, searching PATH or not. */
  function ExecVariantOf(d: Record): ExecVariant {
    if d.envp.Some? then
      if HasBit(d.flags, ETD_SEARCH_PATH) then Execvpe else Execve
    else
      if HasBit(d.flags, ETD_SEARCH_PATH) then Execvp else Execv
  }

  /** The name the trampoline reports for a failed exec. */
  function ExecName(v: ExecVariant): string {
    match v
    case Execvpe => "execvpe"
    case Execve => "execve"
    case Execvp => "execvp"
    case Execv => "execv"
  }

  /** The `fail:` label: publish the failure and errno, then raise(SIGKILL). */
  function FailRun(o: Oracle, d: Record, w: World, fun: Option<string>): Run {
    var (w1, _) := Call(o, w, RaiseSigkill);
    Run(d.(fun := fun, error := w.errno), w1, Killed)
  }

  // ---------------------------------------------------------------------------
  // The run, one step per function

  /** exec_trampoline(data), started with record `d` in world `w`. */
  function TrampolineRun(o: Oracle, d: Record, w: World): (r: Run)
    ensures SamePointers(d, r.data)
    ensures r.end == ImageReplaced ==> r.data.fun == d.fun
    decreases d.flags, 3
  {
    if HasBit(d.flags, ETD_SETSID) then
      ClearBitDecreases(d.flags, ETD_SETSID);
      var d1 := d.(flags := ClearBit(d.flags, ETD_SETSID));
      var (w1, reply) := Call(o, w, Setsid);
      if reply.ret == -1 then FailRun(o, d1, w1, Some("setsid")) else RunAfterSetsid(o, d1, w1)
    else
      RunAfterSetsid(o, d, w)
  }

  /** From the parent-death signal on. */
  function RunAfterSetsid(o: Oracle, d: Record, w: World): (r: Run)
    ensures SamePointers(d, r.data)
    ensures r.end == ImageReplaced ==> r.data.fun == d.fun
    decreases d.flags, 2
  {
    if d.parentSignal >= 0 then
      var d1 := d.(parentSignal := 0);
      var (w1, reply) := Call(o, w, SetPdeathsig(d.parentSignal));
      if reply.ret != 0 then FailRun(o, d1, w1, Some("PR_SET_PDEATHSIG")) else RunAfterPdeathsig(o, d1, w1)
    else
      RunAfterPdeathsig(o, d, w)
  }

  /**
   * From the double fork on. The intermediate child clones the grandchild, which runs
   * the trampoline again on the same record; whatever the grandchild did, the
   * intermediate child then goes to `fail:` with `fun` NULL unless its clone failed.
   */
  function RunAfterPdeathsig(o: Oracle, d: Record, w: World): (r: Run)
    ensures SamePointers(d, r.data)
    ensures r.end == ImageReplaced ==> r.data.fun == d.fun
    decreases d.flags, 1
  {
    if HasBit(d.flags, ETD_DOUBLEFORK) then
      ClearBitDecreases(d.flags, ETD_DOUBLEFORK);
      var d1 := d.(flags := ClearBit(d.flags, ETD_DOUBLEFORK));
      var (w1, reply) := Call(o, w, Clone(DoubleforkCloneFlags()));
      if reply.ret < 0 then FailRun(o, d1, w1, Some("clone(doublefork)"))
      else
        var grandchild := TrampolineRun(o, d1, w1);
        FailRun(o, grandchild.data, grandchild.world, None)
    else
      RunAfterDoublefork(o, d, w)
  }

  /** Ignoring the requested signals, getpid, and the exec. */
  function RunAfterDoublefork(o: Oracle, d: Record, w: World): (r: Run)
    ensures SamePointers(d, r.data) && r.data.sigign == 0
    ensures r.end == ImageReplaced ==> r.data.fun == d.fun && ExecVariantOf(r.data) == ExecVariantOf(d)
  {
    var (w1, failed) := IgnoreOutcome(o, d.sigign, w);
    var d1 := d.(sigign := 0);
    if failed then FailRun(o, d1, w1, Some("signal"))
    else
      var (w2, pid) := Call(o, w1, Getpid);
      var d2 := d1.(childpid := pid.ret);
      var v := ExecVariantOf(d2);
      var (w3, reply) := Call(o, w2, Exec(v, d2.path, d2.argv, d2.envp));
      if ExecReturned(reply.ret) then FailRun(o, d2, w3, Some(ExecName(v)))
      else Run(d2, w3, ImageReplaced)
  }

  /** The `if (sigign) do { ... } while (sigign)` block; true when a signal() failed. */
  function IgnoreOutcome(o: Oracle, sigign: nat, w: World): (r: (World, bool))
    ensures OnlyIgnores(w, r.0, 0)
    ensures r.1 ==> LastRefused(o, w, r.0)
  {
    if sigign == 0 then (w, false) else IgnoreLoop(o, sigign, 0, w)
  }

  /**
   * The rest of the loop, with `bits` still to shift out and `signum` the number of
   * the last bit looked at.
   */
  function IgnoreLoop(o: Oracle, bits: nat, signum: int, w: World): (r: (World, bool))
    ensures OnlyIgnores(w, r.0, signum)
    ensures r.1 ==> LastRefused(o, w, r.0)
    decreases bits
  {
    if bits == 0 then (w, false)
    else
      var n := signum + 1;
      if bits % 2 != 1 || n == SIGKILL || n == SIGSTOP then IgnoreLoop(o, bits / 2, n, w)
      else
        var (w1, reply) := Call(o, w, IgnoreSignal(n));
        if reply.ret == SIG_ERR then (w1, true) else IgnoreLoop(o, bits / 2, n, w1)
  }

  /** The run never writes the record's path, argv and envp. */
  predicate SamePointers(d: Record, e: Record) {
    e.path == d.path && e.argv == d.argv && e.envp == d.envp
  }

  /**
   * `after` extends `before` by signal(n, SIG_IGN) calls only, each for a number above
   * `signum` other than SIGKILL and SIGSTOP.
   */
  predicate OnlyIgnores(before: World, after: World, signum: int) {
    |before.trace| <= |after.trace| && after.trace[..|before.trace|] == before.trace &&
    forall i :: |before.trace| <= i < |after.trace| ==>
      after.trace[i].IgnoreSignal? && signum < after.trace[i].signum &&
      after.trace[i].signum != SIGKILL && after.trace[i].signum != SIGSTOP
  }

  /** `after` made at least one call beyond `before`, and the last one returned SIG_ERR. */
  predicate LastRefused(o: Oracle, before: World, after: World) {
    |before.trace| < |after.trace| &&
    o(after.trace[..|after.trace| - 1], after.trace[|after.trace| - 1]).ret == SIG_ERR
  }

  // ---------------------------------------------------------------------------
  // The record in memory

  /** ExecTrampolineData. The path, argv and envp pointers are never written. */
  class ExecTrampolineData {
    const path: Bytes
    const argv: seq<Bytes>
    const envp: Option<seq<Bytes>>
    var flags: nat
    var parentSignal: int
    var sigign: nat
    var childpid: int
    var fun: Option<string>
    var error: int

    constructor (r: Record)
      ensures Snapshot() == r
    {
      path, argv, envp := r.path, r.argv, r.envp;
      flags, parentSignal, sigign := r.flags, r.parentSignal, r.sigign;
      childpid, fun, error := r.childpid, r.fun, r.error;
    }

    function Snapshot(): Record
      reads this
    {
      Record(path, argv, envp, flags, parentSignal, sigign, childpid, fun, error)
    }

    /**
     * exec_trampoline(this), run by the process `host` stands for. The C function is
     * one body with a shared `fail:` label; here each stretch between two failure
     * points is a method of its own, and each of them ends in `Fail`.
     */
    method ExecTrampoline(host: Host) returns (end: Terminal)
      modifies this, host
      decreases flags, 3
      ensures Run(Snapshot(), host.View(), end) ==
              TrampolineRun(host.oracle, old(Snapshot()), old(host.View()))
    {
      if HasBit(flags, ETD_SETSID) {
        ClearBitDecreases(flags, ETD_SETSID);
        flags := ClearBit(flags, ETD_SETSID);
        var outcome := host.Do(Setsid);
        if outcome == -1 {
          end := Fail(host, Some("setsid"));
          return;
        }
      }
      end := AfterSetsid(host);
    }

    /** From `int parent_signal = data->parent_signal;` on. */
    method AfterSetsid(host: Host) returns (end: Terminal)
      modifies this, host
      decreases flags, 2
      ensures Run(Snapshot(), host.View(), end) ==
              RunAfterSetsid(host.oracle, old(Snapshot()), old(host.View()))
    {
      var parent_signal := parentSignal;
      if parent_signal >= 0 {
        parentSignal := 0;
        var outcome := host.Do(SetPdeathsig(parent_signal));
        if outcome != 0 {
          end := Fail(host, Some("PR_SET_PDEATHSIG"));
          return;
        }
      }
      end := AfterPdeathsig(host);
    }

    /** From the double fork on; the grandchild runs on this same record. */
    method AfterPdeathsig(host: Host) returns (end: Terminal)
      modifies this, host
      decreases flags, 1
      ensures Run(Snapshot(), host.View(), end) ==
              RunAfterPdeathsig(host.oracle, old(Snapshot()), old(host.View()))
    {
      if HasBit(flags, ETD_DOUBLEFORK) {
        ClearBitDecreases(flags, ETD_DOUBLEFORK);
        flags := ClearBit(flags, ETD_DOUBLEFORK);
        var childprocess := host.Do(Clone(DoubleforkCloneFlags()));
        if childprocess < 0 {
          end := Fail(host, Some("clone(doublefork)"));
        } else {
          var _ := ExecTrampoline(host);
          end := Fail(host, None);
        }
        return;
      }
      end := AfterDoublefork(host);
    }

    /** The ignore loop, getpid and the exec. */
    method AfterDoublefork(host: Host) returns (end: Terminal)
      modifies this, host
      ensures Run(Snapshot(), host.View(), end) ==
              RunAfterDoublefork(host.oracle, old(Snapshot()), old(host.View()))
    {
      var failed := IgnoreSignals(host);
      if failed {
        end := Fail(host, Some("signal"));
        return;
      }
      childpid := host.Do(Getpid);
      var outcome;
      var name;
      if envp.Some? {
        if HasBit(flags, ETD_SEARCH_PATH) {
          outcome := host.Do(Exec(Execvpe, path, argv, envp));
          name := "execvpe";
        } else {
          outcome := host.Do(Exec(Execve, path, argv, envp));
          name := "execve";
        }
      } else {
        if HasBit(flags, ETD_SEARCH_PATH) {
          outcome := host.Do(Exec(Execvp, path, argv, envp));
          name := "execvp";
        } else {
          outcome := host.Do(Exec(Execv, path, argv, envp));
          name := "execv";
        }
      }
      if !ExecReturned(outcome) {
        return ImageReplaced;
      }
      end := Fail(host, Some(name));
    }

    /**
     * `if (sigign) { data->sigign = 0; do { ... } while (sigign); }`, true when a
     * signal() call returned SIG_ERR.
     */
    method IgnoreSignals(host: Host) returns (failed: bool)
      modifies this, host
      ensures Snapshot() == old(Snapshot()).(sigign := 0)
      ensures (host.View(), failed) ==
              IgnoreOutcome(host.oracle, old(sigign), old(host.View()))
    {
      failed := false;
      var bits := sigign;
      if bits != 0 {
        sigign := 0;
        var signum := 0;
        while bits != 0
          invariant IgnoreOutcome(host.oracle, old(sigign), old(host.View())) ==
                    IgnoreLoop(host.oracle, bits, signum, host.View())
          invariant Snapshot() == old(Snapshot()).(sigign := 0)
          decreases bits
        {
          var has := bits % 2 == 1;
          bits := bits / 2;
          signum := signum + 1;
          if !has || signum == SIGKILL || signum == SIGSTOP {
            continue;
          }
          var outcome := host.Do(IgnoreSignal(signum));
          if outcome == SIG_ERR {
            return true;
          }
        }
      }
    }

    /** `fail:`: publish `name` and errno in the record, then raise(SIGKILL). */
    method Fail(host: Host, name: Option<string>) returns (end: Terminal)
      modifies this, host
      ensures Run(Snapshot(), host.View(), end) ==
              FailRun(host.oracle, old(Snapshot()), old(host.View()), name)
    {
      fun := name;
      error := host.errno;
      var _ := host.Do(RaiseSigkill);
      end := Killed;
    }
  }
}
