/**
 * The operating system and C runtime that pdeathsignal.c calls into.
 *
 * Every call is answered by an oracle that sees the whole history of calls made
 * so far, so any behaviour of the kernel is covered. A reply is the raw return
 * value of the call together with the value `errno` holds afterwards. There is
 * one `errno` for the parent, the child and the grandchild: the children are
 * created with CLONE_VM and without CLONE_SETTLS, so they share the parent's
 * thread-local storage and with it the location of `errno`.
 */
module Host {
  import opened Wrappers

  type Bytes = seq<bv8>

  /** The four members of the exec family the trampoline chooses from. */
  datatype ExecVariant = Execvpe | Execve | Execvp | Execv

  datatype Syscall =
    | Malloc(size: nat)                 // PyMem_RawMalloc
    | Setsid
    | SetPdeathsig(signal: int)         // prctl(PR_SET_PDEATHSIG, signal, 0, 0, 0)
    | Clone(flags: nat)                 // clone(fn, stack, flags, arg)
    | IgnoreSignal(signum: int)         // signal(signum, SIG_IGN)
    | Getpid
    | Exec(variant: ExecVariant, path: Bytes, argv: seq<Bytes>, envp: Option<seq<Bytes>>)
    | RaiseSigkill                      // raise(SIGKILL): never returns
    | Waitpid(pid: int)                 // waitpid(pid, NULL, WNOHANG)

  datatype Reply = Reply(ret: int, errno: int)

  /** The kernel's answer to a call, given every call made before it. */
  type Oracle = (seq<Syscall>, Syscall) -> Reply

  /** What the outside world has seen so far: the calls made and the current errno. */
  datatype World = World(trace: seq<Syscall>, errno: int)

  /** SIG_ERR, the value signal() returns on failure, as its integer value. */
  const SIG_ERR: int := -1

  /** Linux signal numbers the trampoline treats specially. */
  const SIGKILL: int := 9
  const SIGSTOP: int := 19

  /** clone(2) flags: share memory, suspend the caller until the child execs or exits,
      make the child a sibling of the caller. */
  const CLONE_VM: nat := 0x100
  const CLONE_VFORK: nat := 0x4000
  const CLONE_PARENT: nat := 0x8000

  /** Makes one call: it is appended to the trace and errno takes the reply's value. */
  function Call(o: Oracle, w: World, c: Syscall): (r: (World, Reply))
    ensures r.0.trace == w.trace + [c]
    ensures r.1 == o(w.trace, c) && r.0.errno == r.1.errno
  {
    var reply := o(w.trace, c);
    (World(w.trace + [c], reply.errno), reply)
  }

  /** An exec* call returns only when it fails, and then it returns -1. */
  predicate ExecReturned(ret: int) {
    ret == -1
  }

  /** The same world as an object whose methods are the calls. */
  class Host {
    const oracle: Oracle
    var trace: seq<Syscall>
    var errno: int

    constructor (o: Oracle, w: World)
      ensures oracle == o && View() == w
    {
      oracle := o;
      trace := w.trace;
      errno := w.errno;
    }

    function View(): World
      reads this
    {
      World(trace, errno)
    }

    /** Performs `c` and returns its raw result. */
    method Do(c: Syscall) returns (ret: int)
      modifies this
      ensures (View(), Reply(ret, errno)) == Call(oracle, old(View()), c)
    {
      var reply := oracle(trace, c);
      trace := trace + [c];
      errno := reply.errno;
      ret := reply.ret;
    }
  }
}
