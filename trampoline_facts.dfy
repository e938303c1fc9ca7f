/**
 * What exec_trampoline guarantees the process that cloned it: how it ends, which
 * signals it ignores, what it reports when a step fails, and what the double fork
 * hides.
 */
module TrampolineFacts {
  import opened Wrappers
  import opened Bits
  import opened Host
  import opened Trampoline

  // ---------------------------------------------------------------------------
  // The ignore loop

  /** The signal numbers the loop hands to signal(): bit k stands for k + 1 + signum. */
  function IgnoreTargets(bits: nat, signum: int): seq<int>
    decreases bits
  {
    if bits == 0 then []
    else
      var n := signum + 1;
      (if bits % 2 == 1 && n != SIGKILL && n != SIGSTOP then [n] else []) + IgnoreTargets(bits / 2, n)
  }

  /** Reference behaviour: ignore each listed signal in turn, stop at the first SIG_ERR. */
  function IgnoreAll(o: Oracle, targets: seq<int>, w: World): (World, bool)
    decreases |targets|
  {
    if targets == [] then (w, false)
    else
      var (w1, reply) := Call(o, w, IgnoreSignal(targets[0]));
      if reply.ret == SIG_ERR then (w1, true) else IgnoreAll(o, targets[1..], w1)
  }

  function Ignores(targets: seq<int>): seq<Syscall>
    decreases |targets|
  {
    if targets == [] then [] else [IgnoreSignal(targets[0])] + Ignores(targets[1..])
  }

  /** The shift loop is the reference behaviour on its list of targets. */
  lemma {:induction false} IgnoreLoopIsIgnoreAll(o: Oracle, bits: nat, signum: int, w: World)
    ensures IgnoreLoop(o, bits, signum, w) == IgnoreAll(o, IgnoreTargets(bits, signum), w)
    decreases bits
  {
    if bits != 0 {
      var n := signum + 1;
      var rest := IgnoreTargets(bits / 2, n);
      if bits % 2 != 1 || n == SIGKILL || n == SIGSTOP {
        assert IgnoreTargets(bits, signum) == rest;
        IgnoreLoopIsIgnoreAll(o, bits / 2, n, w);
      } else {
        assert IgnoreTargets(bits, signum) == [n] + rest;
        assert ([n] + rest)[1..] == rest;
        var (w1, reply) := Call(o, w, IgnoreSignal(n));
        IgnoreLoopIsIgnoreAll(o, bits / 2, n, w1);
      }
    }
  }

  /** Signal n is a target exactly when its bit is set and it is not SIGKILL or SIGSTOP. */
  lemma {:induction false} IgnoreTargetsMembers(bits: nat, signum: int, n: int)
    ensures n in IgnoreTargets(bits, signum) <==>
            signum < n && HasBit(bits, n - signum - 1) && n != SIGKILL && n != SIGSTOP
    decreases bits
  {
    if bits == 0 {
      if signum < n {
        NoBitOfZero(n - signum - 1);
      }
    } else {
      var m := signum + 1;
      IgnoreTargetsMembers(bits / 2, m, n);
      var head: seq<int> := if bits % 2 == 1 && m != SIGKILL && m != SIGSTOP then [m] else [];
      assert IgnoreTargets(bits, signum) == head + IgnoreTargets(bits / 2, m);
      assert n in head + IgnoreTargets(bits / 2, m) <==> n in head || n in IgnoreTargets(bits / 2, m);
    }
  }

  /** The targets come in strictly increasing order, all above `signum`. */
  lemma {:induction false} IgnoreTargetsIncreasing(bits: nat, signum: int)
    ensures forall i :: 0 <= i < |IgnoreTargets(bits, signum)| ==> signum < IgnoreTargets(bits, signum)[i]
    ensures forall i, j :: 0 <= i < j < |IgnoreTargets(bits, signum)| ==>
              IgnoreTargets(bits, signum)[i] < IgnoreTargets(bits, signum)[j]
    decreases bits
  {
    if bits != 0 {
      var m := signum + 1;
      IgnoreTargetsIncreasing(bits / 2, m);
    }
  }

  /**
   * The calls the reference behaviour makes: all targets when every signal() call
   * succeeds, otherwise the first n targets, the last of which was refused.
   */
  lemma {:induction false} IgnoreAllTrace(o: Oracle, targets: seq<int>, w: World)
    ensures var (w1, failed) := IgnoreAll(o, targets, w);
            var n := |w1.trace| - |w.trace|;
            (!failed ==> w1.trace == w.trace + Ignores(targets)) &&
            (failed ==> 0 < n <= |targets| && w1.trace == w.trace + Ignores(targets[..n]) &&
                        o(w.trace + Ignores(targets[..n - 1]), IgnoreSignal(targets[n - 1])).ret == SIG_ERR)
    decreases |targets|
  {
    if targets != [] {
      var (w1, reply) := Call(o, w, IgnoreSignal(targets[0]));
      if reply.ret == SIG_ERR {
        assert IgnoreAll(o, targets, w) == (w1, true);
        IgnoreAllHeadRefused(o, targets, w);
      } else {
        var tail := targets[1..];
        assert IgnoreAll(o, targets, w) == IgnoreAll(o, tail, w1);
        IgnoreAllTrace(o, tail, w1);
        var (w2, failed) := IgnoreAll(o, tail, w1);
        if failed {
          IgnoreAllFailedStep(o, targets, w, w1, w2);
        } else {
          assert Ignores(targets) == [IgnoreSignal(targets[0])] + Ignores(tail);
        }
      }
    }
  }

  /** A refused first target: one call, and it is the one that failed. */
  lemma IgnoreAllHeadRefused(o: Oracle, targets: seq<int>, w: World)
    requires targets != [] && o(w.trace, IgnoreSignal(targets[0])).ret == SIG_ERR
    ensures var w1 := Call(o, w, IgnoreSignal(targets[0])).0;
            var n := |w1.trace| - |w.trace|;
            0 < n <= |targets| && w1.trace == w.trace + Ignores(targets[..n]) &&
            o(w.trace + Ignores(targets[..n - 1]), IgnoreSignal(targets[n - 1])).ret == SIG_ERR
  {
    assert Ignores(targets[..1]) == [IgnoreSignal(targets[0])] by {
      assert targets[..1][1..] == [];
    }
    assert targets[..0] == [];
    assert w.trace + Ignores(targets[..0]) == w.trace;
  }

  lemma IgnoreAllFailedStep(o: Oracle, targets: seq<int>, w: World, w1: World, w2: World)
    requires targets != [] && w1.trace == w.trace + [IgnoreSignal(targets[0])]
    requires var m := |w2.trace| - |w1.trace|;
             0 < m <= |targets[1..]| && w2.trace == w1.trace + Ignores(targets[1..][..m]) &&
             o(w1.trace + Ignores(targets[1..][..m - 1]), IgnoreSignal(targets[1..][m - 1])).ret == SIG_ERR
    ensures var n := |w2.trace| - |w.trace|;
            0 < n <= |targets| && w2.trace == w.trace + Ignores(targets[..n]) &&
            o(w.trace + Ignores(targets[..n - 1]), IgnoreSignal(targets[n - 1])).ret == SIG_ERR
  {
    var m := |w2.trace| - |w1.trace|;
    IgnoresPrefix(targets, m);
    IgnoresPrefix(targets, m - 1);
    assert targets[m] == targets[1..][m - 1];
    assert |w2.trace| - |w.trace| == m + 1;
    assert w.trace + Ignores(targets[..m + 1]) == w1.trace + Ignores(targets[1..][..m]);
    assert w.trace + Ignores(targets[..m]) == w1.trace + Ignores(targets[1..][..m - 1]);
  }

  /** Ignores of a nonempty prefix: its first call, then the calls of the rest. */
  lemma IgnoresPrefix(targets: seq<int>, k: nat)
    requires 0 < k + 1 <= |targets|
    ensures Ignores(targets[..k + 1]) == [IgnoreSignal(targets[0])] + Ignores(targets[1..][..k])
  {
    assert targets[..k + 1][1..] == targets[1..][..k];
  }

  // ---------------------------------------------------------------------------
  // How every run ends

  predicate Extends(before: seq<Syscall>, after: seq<Syscall>) {
    |before| <= |after| && after[..|before|] == before
  }

  /** The trampoline never returns to its caller: it execs or it dies by SIGKILL. */
  predicate EndsProperly(o: Oracle, d: Record, w: World, r: Run) {
    Extends(w.trace, r.world.trace) && |r.world.trace| > |w.trace| &&
    var last := r.world.trace[|r.world.trace| - 1];
    var replyToLast := o(r.world.trace[..|r.world.trace| - 1], last);
    (r.end == Killed ==> last == RaiseSigkill) &&
    (r.end == ImageReplaced ==>
       last.Exec? && !ExecReturned(replyToLast.ret) && r.data.fun == d.fun &&
       last == Exec(ExecVariantOf(r.data), d.path, d.argv, d.envp))
  }

  lemma ExtendsTrans(a: seq<Syscall>, b: seq<Syscall>, c: seq<Syscall>)
    requires Extends(a, b) && Extends(b, c)
    ensures Extends(a, c)
  {
    assert c[..|a|] == c[..|b|][..|a|];
  }

  lemma CallExtends(o: Oracle, w: World, c: Syscall)
    ensures Extends(w.trace, Call(o, w, c).0.trace)
  {
    assert (w.trace + [c])[..|w.trace|] == w.trace;
  }

  lemma FailEnds(o: Oracle, d: Record, w: World, fun: Option<string>)
    ensures EndsProperly(o, d, w, FailRun(o, d, w, fun))
  {
    CallExtends(o, w, RaiseSigkill);
  }

  /** EndsProperly with the record as the caller left it, for runs that pass records on. */
  lemma EndsProperlyFrom(o: Oracle, d: Record, d1: Record, w: World, w1: World, r: Run)
    requires EndsProperly(o, d1, w1, r) && Extends(w.trace, w1.trace)
    requires d1.path == d.path && d1.argv == d.argv && d1.envp == d.envp && d1.fun == d.fun
    ensures EndsProperly(o, d, w, r)
  {
    ExtendsTrans(w.trace, w1.trace, r.world.trace);
  }

  lemma AfterDoubleforkEnds(o: Oracle, d: Record, w: World)
    ensures EndsProperly(o, d, w, RunAfterDoublefork(o, d, w))
  {
    var (w1, failed) := IgnoreOutcome(o, d.sigign, w);
    var d1 := d.(sigign := 0);
    if failed {
      FailEnds(o, d1, w1, Some("signal"));
      EndsProperlyFrom(o, d, d1, w, w1, RunAfterDoublefork(o, d, w));
    } else {
      var (w2, pid) := Call(o, w1, Getpid);
      CallExtends(o, w1, Getpid);
      var d2 := d1.(childpid := pid.ret);
      var v := ExecVariantOf(d2);
      var (w3, reply) := Call(o, w2, Exec(v, d2.path, d2.argv, d2.envp));
      CallExtends(o, w2, Exec(v, d2.path, d2.argv, d2.envp));
      ExtendsTrans(w.trace, w1.trace, w2.trace);
      ExtendsTrans(w.trace, w2.trace, w3.trace);
      if ExecReturned(reply.ret) {
        FailEnds(o, d2, w3, Some(ExecName(v)));
        EndsProperlyFrom(o, d, d2, w, w3, RunAfterDoublefork(o, d, w));
      } else {
        assert w3.trace[..|w3.trace| - 1] == w2.trace;
      }
    }
  }

  lemma {:induction false} TrampolineEnds(o: Oracle, d: Record, w: World)
    ensures EndsProperly(o, d, w, TrampolineRun(o, d, w))
    decreases d.flags, 3
  {
    if HasBit(d.flags, ETD_SETSID) {
      ClearBitDecreases(d.flags, ETD_SETSID);
      var d1 := d.(flags := ClearBit(d.flags, ETD_SETSID));
      var (w1, reply) := Call(o, w, Setsid);
      CallExtends(o, w, Setsid);
      if reply.ret == -1 {
        FailEnds(o, d1, w1, Some("setsid"));
      } else {
        AfterSetsidEnds(o, d1, w1);
      }
      EndsProperlyFrom(o, d, d1, w, w1, TrampolineRun(o, d, w));
    } else {
      AfterSetsidEnds(o, d, w);
    }
  }

  lemma {:induction false} AfterSetsidEnds(o: Oracle, d: Record, w: World)
    ensures EndsProperly(o, d, w, RunAfterSetsid(o, d, w))
    decreases d.flags, 2
  {
    if d.parentSignal >= 0 {
      var d1 := d.(parentSignal := 0);
      var (w1, reply) := Call(o, w, SetPdeathsig(d.parentSignal));
      CallExtends(o, w, SetPdeathsig(d.parentSignal));
      if reply.ret != 0 {
        FailEnds(o, d1, w1, Some("PR_SET_PDEATHSIG"));
      } else {
        AfterPdeathsigEnds(o, d1, w1);
      }
      EndsProperlyFrom(o, d, d1, w, w1, RunAfterSetsid(o, d, w));
    } else {
      AfterPdeathsigEnds(o, d, w);
    }
  }

  lemma {:induction false} AfterPdeathsigEnds(o: Oracle, d: Record, w: World)
    ensures EndsProperly(o, d, w, RunAfterPdeathsig(o, d, w))
    decreases d.flags, 1
  {
    if HasBit(d.flags, ETD_DOUBLEFORK) {
      ClearBitDecreases(d.flags, ETD_DOUBLEFORK);
      var d1 := d.(flags := ClearBit(d.flags, ETD_DOUBLEFORK));
      var (w1, reply) := Call(o, w, Clone(DoubleforkCloneFlags()));
      CallExtends(o, w, Clone(DoubleforkCloneFlags()));
      if reply.ret < 0 {
        FailEnds(o, d1, w1, Some("clone(doublefork)"));
        EndsProperlyFrom(o, d, d1, w, w1, RunAfterPdeathsig(o, d, w));
      } else {
        var grandchild := TrampolineRun(o, d1, w1);
        TrampolineEnds(o, d1, w1);
        FailEnds(o, grandchild.data, grandchild.world, None);
        ExtendsTrans(w.trace, w1.trace, grandchild.world.trace);
        ExtendsTrans(w.trace, grandchild.world.trace, RunAfterPdeathsig(o, d, w).world.trace);
      }
    } else {
      AfterDoubleforkEnds(o, d, w);
    }
  }

  // ---------------------------------------------------------------------------
  // What the record reports

  /** A failing setsid() is reported as "setsid" with its errno, and nothing else runs. */
  lemma SetsidFailureReported(o: Oracle, d: Record, w: World)
    requires HasBit(d.flags, ETD_SETSID) && o(w.trace, Setsid).ret == -1
    ensures var r := TrampolineRun(o, d, w);
            r.end == Killed && r.data.fun == Some("setsid") &&
            r.data.error == o(w.trace, Setsid).errno &&
            r.world.trace == w.trace + [Setsid, RaiseSigkill]
  {
  }

  /**
   * A failing prctl, reached directly or after a successful setsid, is reported as
   * "PR_SET_PDEATHSIG" with its errno, and only raise(SIGKILL) follows it.
   */
  lemma PdeathsigFailureReported(o: Oracle, d: Record, w: World)
    requires d.parentSignal >= 0
    requires HasBit(d.flags, ETD_SETSID) ==> o(w.trace, Setsid).ret != -1
    requires var ws := if HasBit(d.flags, ETD_SETSID) then Call(o, w, Setsid).0 else w;
             o(ws.trace, SetPdeathsig(d.parentSignal)).ret != 0
    ensures var ws := if HasBit(d.flags, ETD_SETSID) then Call(o, w, Setsid).0 else w;
            var r := TrampolineRun(o, d, w);
            r.end == Killed && r.data.fun == Some("PR_SET_PDEATHSIG") &&
            r.data.error == o(ws.trace, SetPdeathsig(d.parentSignal)).errno &&
            r.data.parentSignal == 0 &&
            r.world.trace == w.trace + (if HasBit(d.flags, ETD_SETSID) then [Setsid] else []) +
                             [SetPdeathsig(d.parentSignal), RaiseSigkill]
  {
  }

  /**
   * The double-fork step: the intermediate child always kills itself, and reports
   * "clone(doublefork)" when its clone failed and NULL otherwise, whatever the
   * grandchild wrote into the record.
   */
  lemma DoubleforkStep(o: Oracle, d: Record, w: World)
    requires HasBit(d.flags, ETD_DOUBLEFORK)
    ensures var r := RunAfterPdeathsig(o, d, w);
            var reply := o(w.trace, Clone(DoubleforkCloneFlags()));
            r.end == Killed &&
            r.data.fun == (if reply.ret < 0 then Some("clone(doublefork)") else None) &&
            (reply.ret < 0 ==>
               r.data.error == reply.errno &&
               r.world.trace == w.trace + [Clone(DoubleforkCloneFlags()), RaiseSigkill])
  {
  }

  /**
   * Once setsid is behind it, a double fork whose clone succeeds makes no further
   * setsid() or clone() call: the grandchild runs a single pass, and the
   * intermediate child only raises SIGKILL.
   */
  lemma DoubleforkClonesOnce(o: Oracle, d: Record, w: World)
    requires HasBit(d.flags, ETD_DOUBLEFORK) && !HasBit(d.flags, ETD_SETSID)
    requires o(w.trace, Clone(DoubleforkCloneFlags())).ret >= 0
    ensures var w1 := Call(o, w, Clone(DoubleforkCloneFlags())).0;
            var r := RunAfterPdeathsig(o, d, w);
            Extends(w1.trace, r.world.trace) && NoSetsidOrClone(Added(w1, r.world))
  {
    var w1 := Call(o, w, Clone(DoubleforkCloneFlags())).0;
    var d1 := d.(flags := ClearBit(d.flags, ETD_DOUBLEFORK));
    HasBitClearBit(d.flags, ETD_DOUBLEFORK, ETD_SETSID);
    HasBitClearBit(d.flags, ETD_DOUBLEFORK, ETD_DOUBLEFORK);
    SinglePassMakesNoSetsidOrClone(o, d1, w1);
    var g := TrampolineRun(o, d1, w1);
    LeafCall(o, g.world, RaiseSigkill);
    LeavesCompose(w1, g.world, Call(o, g.world, RaiseSigkill).0);
  }

  /** With doublefork requested the trampoline never execs in its own process. */
  lemma DoubleforkAlwaysKilled(o: Oracle, d: Record, w: World)
    requires HasBit(d.flags, ETD_DOUBLEFORK)
    ensures TrampolineRun(o, d, w).end == Killed
    ensures TrampolineRun(o, d, w).data.fun in {None, Some("setsid"), Some("PR_SET_PDEATHSIG"), Some("clone(doublefork)")}
  {
    var d1 := if HasBit(d.flags, ETD_SETSID) then d.(flags := ClearBit(d.flags, ETD_SETSID)) else d;
    HasBitClearBit(d.flags, ETD_SETSID, ETD_DOUBLEFORK);
    if HasBit(d.flags, ETD_SETSID) {
      var (w1, reply) := Call(o, w, Setsid);
      if reply.ret != -1 {
        AfterSetsidDoublefork(o, d1, w1);
      }
    } else {
      AfterSetsidDoublefork(o, d1, w);
    }
  }

  lemma AfterSetsidDoublefork(o: Oracle, d: Record, w: World)
    requires HasBit(d.flags, ETD_DOUBLEFORK)
    ensures RunAfterSetsid(o, d, w).end == Killed
    ensures RunAfterSetsid(o, d, w).data.fun in {None, Some("PR_SET_PDEATHSIG"), Some("clone(doublefork)")}
  {
    if d.parentSignal >= 0 {
      var (w1, reply) := Call(o, w, SetPdeathsig(d.parentSignal));
      if reply.ret == 0 {
        DoubleforkStep(o, d.(parentSignal := 0), w1);
      }
    } else {
      DoubleforkStep(o, d, w);
    }
  }

  /** The record the grandchild starts from asks for neither setsid nor another fork. */
  lemma GrandchildFlags(flags: nat)
    ensures var g := ClearBit(ClearBit(flags, ETD_SETSID), ETD_DOUBLEFORK);
            !HasBit(g, ETD_SETSID) && !HasBit(g, ETD_DOUBLEFORK) &&
            (HasBit(g, ETD_SEARCH_PATH) <==> HasBit(flags, ETD_SEARCH_PATH))
  {
    var f := ClearBit(flags, ETD_SETSID);
    HasBitClearBit(flags, ETD_SETSID, ETD_SETSID);
    HasBitClearBit(flags, ETD_SETSID, ETD_SEARCH_PATH);
    HasBitClearBit(f, ETD_DOUBLEFORK, ETD_SETSID);
    HasBitClearBit(f, ETD_DOUBLEFORK, ETD_DOUBLEFORK);
    HasBitClearBit(f, ETD_DOUBLEFORK, ETD_SEARCH_PATH);
  }

  predicate NoSetsidOrClone(calls: seq<Syscall>) {
    forall i :: 0 <= i < |calls| ==> !calls[i].Setsid? && !calls[i].Clone?
  }

  /** New calls of `after` beyond `before`. */
  function Added(before: World, after: World): seq<Syscall>
    requires Extends(before.trace, after.trace)
  {
    after.trace[|before.trace|..]
  }

  lemma LeavesCompose(w0: World, w1: World, w2: World)
    requires Extends(w0.trace, w1.trace) && Extends(w1.trace, w2.trace)
    requires NoSetsidOrClone(Added(w0, w1)) && NoSetsidOrClone(Added(w1, w2))
    ensures Extends(w0.trace, w2.trace) && NoSetsidOrClone(Added(w0, w2))
  {
    ExtendsTrans(w0.trace, w1.trace, w2.trace);
    var a, b := Added(w0, w1), Added(w1, w2);
    var ab: seq<Syscall> := a + b;
    assert Added(w0, w2) == ab;
    forall i | 0 <= i < |ab| ensures !ab[i].Setsid? && !ab[i].Clone? {
      if i >= |a| {
        assert ab[i] == b[i - |a|];
      }
    }
  }

  lemma LeafCall(o: Oracle, w: World, c: Syscall)
    requires !c.Setsid? && !c.Clone?
    ensures Extends(w.trace, Call(o, w, c).0.trace) && NoSetsidOrClone(Added(w, Call(o, w, c).0))
  {
    CallExtends(o, w, c);
    assert Added(w, Call(o, w, c).0) == [c];
  }

  lemma IgnoreOutcomeLeaves(o: Oracle, sigign: nat, w: World)
    ensures Extends(w.trace, IgnoreOutcome(o, sigign, w).0.trace)
    ensures NoSetsidOrClone(Added(w, IgnoreOutcome(o, sigign, w).0))
  {
    var w1 := IgnoreOutcome(o, sigign, w).0;
    assert OnlyIgnores(w, w1, 0);
    var added := Added(w, w1);
    forall i | 0 <= i < |added| ensures !added[i].Setsid? && !added[i].Clone? {
      assert added[i] == w1.trace[|w.trace| + i];
    }
  }

  lemma AfterDoubleforkLeaves(o: Oracle, d: Record, w: World)
    ensures Extends(w.trace, RunAfterDoublefork(o, d, w).world.trace)
    ensures NoSetsidOrClone(Added(w, RunAfterDoublefork(o, d, w).world))
  {
    var (w1, failed) := IgnoreOutcome(o, d.sigign, w);
    IgnoreOutcomeLeaves(o, d.sigign, w);
    var d1 := d.(sigign := 0);
    if failed {
      LeafCall(o, w1, RaiseSigkill);
      LeavesCompose(w, w1, Call(o, w1, RaiseSigkill).0);
    } else {
      var (w2, pid) := Call(o, w1, Getpid);
      LeafCall(o, w1, Getpid);
      LeavesCompose(w, w1, w2);
      var d2 := d1.(childpid := pid.ret);
      var call := Exec(ExecVariantOf(d2), d2.path, d2.argv, d2.envp);
      var (w3, reply) := Call(o, w2, call);
      LeafCall(o, w2, call);
      LeavesCompose(w, w2, w3);
      if ExecReturned(reply.ret) {
        LeafCall(o, w3, RaiseSigkill);
        LeavesCompose(w, w3, Call(o, w3, RaiseSigkill).0);
      }
    }
  }

  /**
   * A run that asks for neither setsid nor the double fork, as the grandchild's does,
   * calls neither setsid() nor clone().
   */
  lemma SinglePassMakesNoSetsidOrClone(o: Oracle, d: Record, w: World)
    requires !HasBit(d.flags, ETD_SETSID) && !HasBit(d.flags, ETD_DOUBLEFORK)
    ensures Extends(w.trace, TrampolineRun(o, d, w).world.trace)
    ensures NoSetsidOrClone(Added(w, TrampolineRun(o, d, w).world))
  {
    assert TrampolineRun(o, d, w) == RunAfterSetsid(o, d, w);
    if d.parentSignal >= 0 {
      var d1 := d.(parentSignal := 0);
      var (w1, reply) := Call(o, w, SetPdeathsig(d.parentSignal));
      LeafCall(o, w, SetPdeathsig(d.parentSignal));
      if reply.ret != 0 {
        LeafCall(o, w1, RaiseSigkill);
        LeavesCompose(w, w1, Call(o, w1, RaiseSigkill).0);
      } else {
        assert RunAfterSetsid(o, d, w) == RunAfterDoublefork(o, d1, w1);
        AfterDoubleforkLeaves(o, d1, w1);
        LeavesCompose(w, w1, RunAfterDoublefork(o, d1, w1).world);
      }
    } else {
      assert RunAfterSetsid(o, d, w) == RunAfterDoublefork(o, d, w);
      AfterDoubleforkLeaves(o, d, w);
    }
  }

  /**
   * Once at the signal step, the run reports "signal" exactly when one of the
   * signal(n, SIG_IGN) calls failed; getpid and the exec are then skipped.
   */
  lemma SignalFailureReported(o: Oracle, d: Record, w: World)
    requires d.fun == None
    ensures var r := RunAfterDoublefork(o, d, w);
            var (w1, failed) := IgnoreAll(o, IgnoreTargets(d.sigign, 0), w);
            (r.data.fun == Some("signal") <==> failed) &&
            (failed ==> r.end == Killed && r.data.error == w1.errno && r.data.sigign == 0 &&
                        r.data.childpid == d.childpid && r.world.trace == w1.trace + [RaiseSigkill])
  {
    if d.sigign != 0 {
      IgnoreLoopIsIgnoreAll(o, d.sigign, 0, w);
    }
  }

  /** The record once setsid and prctl, as it requests them, have been done. */
  function SetupRecord(d: Record): Record {
    d.(flags := if HasBit(d.flags, ETD_SETSID) then ClearBit(d.flags, ETD_SETSID) else d.flags,
       parentSignal := if d.parentSignal >= 0 then 0 else d.parentSignal)
  }

  /** The world once setsid (when ETD_SETSID is set) and prctl (for a parent_signal >= 0) were called. */
  function AfterSetup(o: Oracle, d: Record, w: World): World {
    var ws := if HasBit(d.flags, ETD_SETSID) then Call(o, w, Setsid).0 else w;
    if d.parentSignal >= 0 then Call(o, ws, SetPdeathsig(d.parentSignal)).0 else ws
  }

  /** Both calls of the setup, where the record asks for them, succeed. */
  predicate SetupSucceeds(o: Oracle, d: Record, w: World) {
    var ws := if HasBit(d.flags, ETD_SETSID) then Call(o, w, Setsid).0 else w;
    (HasBit(d.flags, ETD_SETSID) ==> o(w.trace, Setsid).ret != -1) &&
    (d.parentSignal >= 0 ==> o(ws.trace, SetPdeathsig(d.parentSignal)).ret == 0)
  }

  /**
   * Without the double fork, a run whose setsid and prctl succeed goes on to the
   * ignore step in its own process, having called exactly those two, with the setsid
   * bit cleared, parent_signal zeroed and the rest of the record as it was.
   */
  lemma SetupReachesIgnoreStep(o: Oracle, d: Record, w: World)
    requires !HasBit(d.flags, ETD_DOUBLEFORK) && SetupSucceeds(o, d, w)
    ensures TrampolineRun(o, d, w) == RunAfterDoublefork(o, SetupRecord(d), AfterSetup(o, d, w))
    ensures AfterSetup(o, d, w).trace ==
            w.trace + (if HasBit(d.flags, ETD_SETSID) then [Setsid] else []) +
            (if d.parentSignal >= 0 then [SetPdeathsig(d.parentSignal)] else [])
    ensures ExecVariantOf(SetupRecord(d)) == ExecVariantOf(d)
    ensures !HasBit(SetupRecord(d).flags, ETD_SETSID) && !HasBit(SetupRecord(d).flags, ETD_DOUBLEFORK)
  {
    var d1 := if HasBit(d.flags, ETD_SETSID) then d.(flags := ClearBit(d.flags, ETD_SETSID)) else d;
    var ws := if HasBit(d.flags, ETD_SETSID) then Call(o, w, Setsid).0 else w;
    HasBitClearBit(d.flags, ETD_SETSID, ETD_SETSID);
    HasBitClearBit(d.flags, ETD_SETSID, ETD_DOUBLEFORK);
    HasBitClearBit(d.flags, ETD_SETSID, ETD_SEARCH_PATH);
    assert TrampolineRun(o, d, w) == RunAfterSetsid(o, d1, ws);
    var d2 := if d.parentSignal >= 0 then d1.(parentSignal := 0) else d1;
    assert d2 == SetupRecord(d);
    assert RunAfterSetsid(o, d1, ws) == RunAfterPdeathsig(o, d2, AfterSetup(o, d, w));
  }

  /**
   * The exec step: once every signal(n, SIG_IGN) call succeeded, the exec chosen by
   * envp and ETD_SEARCH_PATH is called with the record's path, argv and envp after
   * getpid() has been stored in childpid; when it returns, its name and errno are
   * reported.
   */
  lemma ExecStep(o: Oracle, d: Record, w: World)
    requires !IgnoreAll(o, IgnoreTargets(d.sigign, 0), w).1
    ensures var wi := IgnoreAll(o, IgnoreTargets(d.sigign, 0), w).0;
            wi.trace == w.trace + Ignores(IgnoreTargets(d.sigign, 0)) &&
            var r := RunAfterDoublefork(o, d, w);
            var (w1, pid) := Call(o, wi, Getpid);
            var call := Exec(ExecVariantOf(d), d.path, d.argv, d.envp);
            var reply := o(w1.trace, call);
            r.data.childpid == pid.ret && r.data.sigign == 0 &&
            (ExecReturned(reply.ret) ==>
               r.end == Killed && r.data.fun == Some(ExecName(ExecVariantOf(d))) &&
               r.data.error == reply.errno &&
               r.world.trace == wi.trace + [Getpid, call, RaiseSigkill]) &&
            (!ExecReturned(reply.ret) ==>
               r == Run(d.(sigign := 0, childpid := pid.ret), World(wi.trace + [Getpid, call], reply.errno), ImageReplaced))
  {
    var targets := IgnoreTargets(d.sigign, 0);
    if d.sigign != 0 {
      IgnoreLoopIsIgnoreAll(o, d.sigign, 0, w);
    }
    IgnoreAllTrace(o, targets, w);
  }

  /** Each failing exec has a name of its own. */
  lemma ExecNamesDiffer(v1: ExecVariant, v2: ExecVariant)
    ensures ExecName(v1) == ExecName(v2) <==> v1 == v2
  {
  }
}
