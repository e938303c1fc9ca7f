/**
 * The `Signal` class of the `_pdeathsignal` extension (src/lib.rs): a frozen wrapper
 * around one of the 31 standard Linux signals, its conversions, the module-level
 * `get` and `set`, and the once-initialised table of the 32 wrapper objects that
 * every `Signal` value handed to Python comes from.
 *
 * The signal numbers are the Linux ones of signal(7); `FromRaw` knows no others.
 */
module Signals {
  import opened Wrappers
  import opened Host

  /** The variants, in the order (and with the numbers 1 to 31) of Linux. */
  datatype Signal =
    | Hup | Int | Quit | Ill | Trap | Abort | Bus | Fpe | Kill | Usr1 | Segv
    | Usr2 | Pipe | Alarm | Term | Stkflt | Child | Cont | Stop | Tstp | Ttin
    | Ttou | Urg | Xcpu | Xfsz | Vtalarm | Prof | Winch | Io | Power | Sys

  /** The number of slots of the wrapper table: one per number 0 to 31. */
  const SIGNAL_COUNT: nat := 32

  /** The range of a Rust i32. */
  const I32_MIN: int := -0x8000_0000
  const I32_MAX: int := 0x7fff_ffff

  /** `signal as i32`: the signal's number. */
  function Raw(s: Signal): (n: int)
    ensures 1 <= n < SIGNAL_COUNT
  {
    match s
    case Hup => 1      case Int => 2      case Quit => 3     case Ill => 4
    case Trap => 5     case Abort => 6    case Bus => 7      case Fpe => 8
    case Kill => 9     case Usr1 => 10    case Segv => 11    case Usr2 => 12
    case Pipe => 13    case Alarm => 14   case Term => 15    case Stkflt => 16
    case Child => 17   case Cont => 18    case Stop => 19    case Tstp => 20
    case Ttin => 21    case Ttou => 22    case Urg => 23     case Xcpu => 24
    case Xfsz => 25    case Vtalarm => 26 case Prof => 27    case Winch => 28
    case Io => 29      case Power => 30   case Sys => 31
  }

  /** `Signal::from_raw`: the signal with number n, if there is one. */
  function FromRaw(n: int): (r: Option<Signal>)
    ensures r.Some? <==> 1 <= n <= 31
  {
    match n
    case 1 => Some(Hup)      case 2 => Some(Int)      case 3 => Some(Quit)     case 4 => Some(Ill)
    case 5 => Some(Trap)     case 6 => Some(Abort)    case 7 => Some(Bus)      case 8 => Some(Fpe)
    case 9 => Some(Kill)     case 10 => Some(Usr1)    case 11 => Some(Segv)    case 12 => Some(Usr2)
    case 13 => Some(Pipe)    case 14 => Some(Alarm)   case 15 => Some(Term)    case 16 => Some(Stkflt)
    case 17 => Some(Child)   case 18 => Some(Cont)    case 19 => Some(Stop)    case 20 => Some(Tstp)
    case 21 => Some(Ttin)    case 22 => Some(Ttou)    case 23 => Some(Urg)     case 24 => Some(Xcpu)
    case 25 => Some(Xfsz)    case 26 => Some(Vtalarm) case 27 => Some(Prof)    case 28 => Some(Winch)
    case 29 => Some(Io)      case 30 => Some(Power)   case 31 => Some(Sys)
    case _ => None
  }

  /** The signal from_raw finds for n carries the number n. */
  lemma RawFromRaw(n: int)
    ensures FromRaw(n).Some? ==> Raw(FromRaw(n).value) == n
  {
    if 1 <= n <= 16 {
      RawFromRawLow(n);
    } else if 17 <= n <= 31 {
      RawFromRawHigh(n);
    }
  }

  lemma RawFromRawLow(n: int)
    requires 1 <= n <= 16
    ensures Raw(FromRaw(n).value) == n
  {
  }

  lemma RawFromRawHigh(n: int)
    requires 17 <= n <= 31
    ensures Raw(FromRaw(n).value) == n
  {
  }

  /** Numbering a signal and reading the number back gives the signal again. */
  lemma FromRawRaw(s: Signal)
    ensures FromRaw(Raw(s)) == Some(s)
  {
  }

  // ---------------------------------------------------------------------------
  // Names

  /** `__str__`: the C name of the signal. */
  function Str(s: Signal): (name: string)
    ensures |name| >= 5 && name[..3] == "SIG"
  {
    match s
    case Hup => "SIGHUP"
    case Int => "SIGINT"
    case Quit => "SIGQUIT"
    case Ill => "SIGILL"
    case Trap => "SIGTRAP"
    case Abort => "SIGABRT"
    case Bus => "SIGBUS"
    case Fpe => "SIGFPE"
    case Kill => "SIGKILL"
    case Usr1 => "SIGUSR1"
    case Segv => "SIGSEGV"
    case Usr2 => "SIGUSR2"
    case Pipe => "SIGPIPE"
    case Alarm => "SIGALRM"
    case Term => "SIGTERM"
    case Stkflt => "SIGSTKFLT"
    case Child => "SIGCHLD"
    case Cont => "SIGCONT"
    case Stop => "SIGSTOP"
    case Tstp => "SIGTSTP"
    case Ttin => "SIGTTIN"
    case Ttou => "SIGTTOU"
    case Urg => "SIGURG"
    case Xcpu => "SIGXCPU"
    case Xfsz => "SIGXFSZ"
    case Vtalarm => "SIGVTALRM"
    case Prof => "SIGPROF"
    case Winch => "SIGWINCH"
    case Io => "SIGIO"
    case Power => "SIGPWR"
    case Sys => "SIGSYS"
  }

  /** `__repr__`: the name qualified by the module and the class. */
  function Repr(s: Signal): (r: string)
    ensures |r| > 20 && r[..20] == "pdeathsignal.Signal."
  {
    match s
    case Hup => "pdeathsignal.Signal.SIGHUP"
    case Int => "pdeathsignal.Signal.SIGINT"
    case Quit => "pdeathsignal.Signal.SIGQUIT"
    case Ill => "pdeathsignal.Signal.SIGILL"
    case Trap => "pdeathsignal.Signal.SIGTRAP"
    case Abort => "pdeathsignal.Signal.SIGABRT"
    case Bus => "pdeathsignal.Signal.SIGBUS"
    case Fpe => "pdeathsignal.Signal.SIGFPE"
    case Kill => "pdeathsignal.Signal.SIGKILL"
    case Usr1 => "pdeathsignal.Signal.SIGUSR1"
    case Segv => "pdeathsignal.Signal.SIGSEGV"
    case Usr2 => "pdeathsignal.Signal.SIGUSR2"
    case Pipe => "pdeathsignal.Signal.SIGPIPE"
    case Alarm => "pdeathsignal.Signal.SIGALRM"
    case Term => "pdeathsignal.Signal.SIGTERM"
    case Stkflt => "pdeathsignal.Signal.SIGSTKFLT"
    case Child => "pdeathsignal.Signal.SIGCHLD"
    case Cont => "pdeathsignal.Signal.SIGCONT"
    case Stop => "pdeathsignal.Signal.SIGSTOP"
    case Tstp => "pdeathsignal.Signal.SIGTSTP"
    case Ttin => "pdeathsignal.Signal.SIGTTIN"
    case Ttou => "pdeathsignal.Signal.SIGTTOU"
    case Urg => "pdeathsignal.Signal.SIGURG"
    case Xcpu => "pdeathsignal.Signal.SIGXCPU"
    case Xfsz => "pdeathsignal.Signal.SIGXFSZ"
    case Vtalarm => "pdeathsignal.Signal.SIGVTALRM"
    case Prof => "pdeathsignal.Signal.SIGPROF"
    case Winch => "pdeathsignal.Signal.SIGWINCH"
    case Io => "pdeathsignal.Signal.SIGIO"
    case Power => "pdeathsignal.Signal.SIGPWR"
    case Sys => "pdeathsignal.Signal.SIGSYS"
  }

  /** The representation is the name behind the module and class prefix. */
  lemma ReprIsQualifiedStr(s: Signal)
    ensures Repr(s) == "pdeathsignal.Signal." + Str(s)
  {
    if Raw(s) <= 16 {
      ReprLow(s);
    } else {
      ReprHigh(s);
    }
  }

  lemma ReprLow(s: Signal)
    requires Raw(s) <= 16
    ensures Repr(s) == "pdeathsignal.Signal." + Str(s)
  {
  }

  lemma ReprHigh(s: Signal)
    requires Raw(s) > 16
    ensures Repr(s) == "pdeathsignal.Signal." + Str(s)
  {
  }

  /** The class attributes, in the order they are declared: each name and the variant it wraps. */
  const CLASS_ATTRIBUTES: seq<(string, Signal)> := [
    ("SIGHUP", Hup), ("SIGINT", Int), ("SIGQUIT", Quit), ("SIGILL", Ill),
    ("SIGTRAP", Trap), ("SIGABRT", Abort), ("SIGBUS", Bus), ("SIGFPE", Fpe),
    ("SIGKILL", Kill), ("SIGUSR1", Usr1), ("SIGSEGV", Segv), ("SIGUSR2", Usr2),
    ("SIGPIPE", Pipe), ("SIGALRM", Alarm), ("SIGTERM", Term), ("SIGSTKFLT", Stkflt),
    ("SIGCHLD", Child), ("SIGCONT", Cont), ("SIGSTOP", Stop), ("SIGTSTP", Tstp),
    ("SIGTTIN", Ttin), ("SIGTTOU", Ttou), ("SIGURG", Urg), ("SIGXCPU", Xcpu),
    ("SIGXFSZ", Xfsz), ("SIGVTALRM", Vtalarm), ("SIGPROF", Prof), ("SIGWINCH", Winch),
    ("SIGIO", Io), ("SIGPWR", Power), ("SIGSYS", Sys)]

  /** `Signal.<name>`: the variant of the first class attribute with that name. */
  function ClassAttribute(name: string): Option<Signal> {
    AttributeIn(CLASS_ATTRIBUTES, name)
  }

  function AttributeIn(table: seq<(string, Signal)>, name: string): (r: Option<Signal>)
    ensures r.Some? ==> (name, r.value) in table
    ensures r.None? ==> forall i :: 0 <= i < |table| ==> table[i].0 != name
  {
    if table == [] then None
    else if table[0].0 == name then Some(table[0].1)
    else AttributeIn(table[1..], name)
  }

  /** Attribute i is declared for the signal numbered i + 1 and carries its `__str__`. */
  lemma ClassAttributeEntry(i: int)
    requires 0 <= i < |CLASS_ATTRIBUTES|
    ensures |CLASS_ATTRIBUTES| == SIGNAL_COUNT - 1
    ensures Raw(CLASS_ATTRIBUTES[i].1) == i + 1
    ensures CLASS_ATTRIBUTES[i].0 == Str(CLASS_ATTRIBUTES[i].1)
  {
    if i < 8 {
      ClassAttributes1To8(i);
    } else if i < 16 {
      ClassAttributes9To16(i);
    } else if i < 24 {
      ClassAttributes17To24(i);
    } else {
      ClassAttributes25To31(i);
    }
  }

  lemma ClassAttributes1To8(i: int)
    requires 0 <= i < 8
    ensures Raw(CLASS_ATTRIBUTES[i].1) == i + 1
    ensures CLASS_ATTRIBUTES[i].0 == Str(CLASS_ATTRIBUTES[i].1)
  {
  }

  lemma ClassAttributes9To16(i: int)
    requires 8 <= i < 16
    ensures Raw(CLASS_ATTRIBUTES[i].1) == i + 1
    ensures CLASS_ATTRIBUTES[i].0 == Str(CLASS_ATTRIBUTES[i].1)
  {
  }

  lemma ClassAttributes17To24(i: int)
    requires 16 <= i < 24
    ensures Raw(CLASS_ATTRIBUTES[i].1) == i + 1
    ensures CLASS_ATTRIBUTES[i].0 == Str(CLASS_ATTRIBUTES[i].1)
  {
  }

  lemma ClassAttributes25To31(i: int)
    requires 24 <= i < 31
    ensures Raw(CLASS_ATTRIBUTES[i].1) == i + 1
    ensures CLASS_ATTRIBUTES[i].0 == Str(CLASS_ATTRIBUTES[i].1)
  {
  }

  /**
   * Every signal has exactly one class attribute: the one named by its `__str__`,
   * declared in number order.
   */
  lemma ClassAttributeOfStr(s: Signal)
    ensures CLASS_ATTRIBUTES[Raw(s) - 1] == (Str(s), s)
    ensures ClassAttribute(Str(s)) == Some(s)
  {
    var t := CLASS_ATTRIBUTES;
    var k := Raw(s) - 1;
    ClassAttributeEntry(k);
    FromRawRaw(s);
    FromRawRaw(t[k].1);
    assert t[k] == (Str(s), s);
    var r := ClassAttribute(Str(s));
    var i :| 0 <= i < |t| && t[i] == (Str(s), r.value);
    ClassAttributeEntry(i);
    StrInjective(t[i].1, s);
  }

  /** No two signals share a name. */
  lemma StrInjective(a: Signal, b: Signal)
    requires Str(a) == Str(b)
    ensures a == b
  {
    assert |Str(a)| == |Str(b)| && Str(a)[3] == Str(b)[3];
  }

  // ---------------------------------------------------------------------------
  // Numbers

  /** `__index__`. */
  function AsIndex(s: Signal): (n: int)
    ensures FromRaw(n) == Some(s)
  {
    Raw(s)
  }

  /** `__int__`. */
  function AsInt(s: Signal): (n: int)
    ensures FromRaw(n) == Some(s)
  {
    Raw(s)
  }

  /** `__pos__`. */
  function Positive(s: Signal): (n: int)
    ensures FromRaw(n) == Some(s)
  {
    Raw(s)
  }

  /** `__neg__`. */
  function Negative(s: Signal): (n: int)
    ensures n < 0 && FromRaw(-n) == Some(s)
  {
    -Raw(s)
  }

  /**
   * The three conversions agree, each gives back a number `__new__` maps to the same
   * signal, and negation is exact: every result lies well inside i32.
   */
  lemma NumericConversions(s: Signal)
    ensures AsIndex(s) == AsInt(s) == Positive(s) == -Negative(s)
    ensures 1 <= AsIndex(s) <= 31 && -31 <= Negative(s) <= -1
    ensures FromRaw(AsIndex(s)) == Some(s)
  {
  }

  // ---------------------------------------------------------------------------
  // Python objects and errors

  /** A `Signal` instance. It is frozen: the wrapped variant never changes. */
  class WrappedSignal {
    const signal: Signal

    constructor (s: Signal)
      ensures signal == s
    {
      signal := s;
    }
  }

  /** The Python exceptions these functions raise. */
  datatype PyError =
    | MemoryError               // a wrapper object could not be allocated
    | ValueError(number: int)   // "Illegal signal number <number>"
    | OSError(errno: int)       // (errno, strerror) of the failed prctl
    | TypeError                 // the argument has none of the accepted types

  /** A Python argument as the extension sees it. */
  datatype PyValue = PyNone | PySignal(obj: WrappedSignal) | PyInt(value: int) | PyOther

  /** `Either<Signal object, i32>` after extraction; Left is tried first. */
  datatype SignalArg = Left(obj: WrappedSignal) | Right(n: int)

  /** Extraction of `Either<_, i32>`: an int outside i32, None or another object is refused. */
  function ExtractEither(v: PyValue): (r: Result<SignalArg, PyError>)
    ensures v.PySignal? ==> r == Ok(Left(v.obj))
    ensures v.PyInt? && I32_MIN <= v.value <= I32_MAX ==> r == Ok(Right(v.value))
    ensures r.Ok? ==> v.PySignal? || (v.PyInt? && I32_MIN <= v.value <= I32_MAX)
    ensures r.Err? ==> r.error == TypeError
  {
    match v
    case PySignal(obj) => Ok(Left(obj))
    case PyInt(n) => if I32_MIN <= n <= I32_MAX then Ok(Right(n)) else Err(TypeError)
    case _ => Err(TypeError)
  }

  /** Extraction of `Option<Either<_, i32>>`: Python None is `None`. */
  function ExtractOptional(v: PyValue): (r: Result<Option<SignalArg>, PyError>)
    ensures r == Ok(None) <==> v.PyNone?
  {
    if v.PyNone? then Ok(None)
    else
      match ExtractEither(v)
      case Ok(a) => Ok(Some(a))
      case Err(e) => Err(e)
  }

  // ---------------------------------------------------------------------------
  // set

  /** The match in `set`: the signal handed to do_set, or the ValueError. */
  function SetRequest(arg: Option<SignalArg>): (r: Result<Option<Signal>, PyError>)
    ensures r == Ok(None) <==> arg.None? || arg == Some(Right(0))
    ensures r.Err? <==> arg.Some? && arg.value.Right? && arg.value.n != 0 && FromRaw(arg.value.n).None?
    ensures r.Err? ==> r.error == ValueError(arg.value.n)
    ensures r.Ok? && r.value.Some? ==>
              arg == Some(Right(Raw(r.value.value))) || (arg.Some? && arg.value.Left? && arg.value.obj.signal == r.value.value)
  {
    match arg
    case None => Ok(None)
    case Some(Right(0)) => Ok(None)
    case Some(Left(obj)) => Ok(Some(obj.signal))
    case Some(Right(n)) =>
      match FromRaw(n)
      case Some(s) => Ok(Some(s))
      case None => Err(ValueError(n))
  }

  /** The number PR_SET_PDEATHSIG receives: 0 clears the parent-death signal. */
  function PrctlArgument(signal: Option<Signal>): (n: int)
    ensures 0 <= n < SIGNAL_COUNT
    ensures n == 0 <==> signal.None?
    ensures signal.Some? ==> FromRaw(n) == signal
  {
    match signal
    case None => 0
    case Some(s) => Raw(s)
  }

  /** do_set: one prctl(PR_SET_PDEATHSIG); a failure becomes OSError with its errno. */
  function DoSet(o: Oracle, w: World, signal: Option<Signal>): (r: (World, Result<(), PyError>))
    ensures r.0.trace == w.trace + [SetPdeathsig(PrctlArgument(signal))]
    ensures r.1.Ok? <==> o(w.trace, SetPdeathsig(PrctlArgument(signal))).ret == 0
    ensures r.1.Err? ==> r.1.error == OSError(o(w.trace, SetPdeathsig(PrctlArgument(signal))).errno)
  {
    var (w1, reply) := Call(o, w, SetPdeathsig(PrctlArgument(signal)));
    if reply.ret != 0 then (w1, Err(OSError(w1.errno))) else (w1, Ok(()))
  }

  /** The module-level `set(signal, /)`, from the Python argument to the result. */
  function Set(o: Oracle, w: World, v: PyValue): (r: (World, Result<(), PyError>))
    ensures r.0 == w <==> r.1.Err? && !r.1.error.OSError?
    ensures r.0 != w ==>
              |r.0.trace| == |w.trace| + 1 && r.0.trace[..|w.trace|] == w.trace &&
              r.0.trace[|w.trace|].SetPdeathsig? && 0 <= r.0.trace[|w.trace|].signal < SIGNAL_COUNT
  {
    match ExtractOptional(v)
    case Err(e) => (w, Err(e))
    case Ok(arg) =>
      match SetRequest(arg)
      case Err(e) => (w, Err(e))
      case Ok(signal) => DoSet(o, w, signal)
  }

  /** The `set` method of a Signal instance: do_set with its own signal. */
  function SetMethod(o: Oracle, w: World, obj: WrappedSignal): (r: (World, Result<(), PyError>))
    ensures r == Set(o, w, PySignal(obj))
    ensures r.0.trace == w.trace + [SetPdeathsig(Raw(obj.signal))]
  {
    DoSet(o, w, Some(obj.signal))
  }

  /**
   * What `set` does: an argument it refuses makes no call at all; otherwise it makes
   * exactly one prctl, with 0 for None and for 0, and with the signal's number for a
   * Signal object or a valid int.
   */
  lemma SetCalls(o: Oracle, w: World, v: PyValue)
    ensures var (w1, r) := Set(o, w, v);
            match v
            case PyNone => w1.trace == w.trace + [SetPdeathsig(0)]
            case PySignal(obj) => w1.trace == w.trace + [SetPdeathsig(Raw(obj.signal))]
            case PyInt(n) =>
              if n == 0 || (I32_MIN <= n <= I32_MAX && FromRaw(n).Some?) then w1.trace == w.trace + [SetPdeathsig(n)]
              else w1 == w && r == Err(if I32_MIN <= n <= I32_MAX then ValueError(n) else TypeError)
            case PyOther => w1 == w && r == Err(TypeError)
  {
    match v
    case PyInt(n) =>
      if n != 0 && I32_MIN <= n <= I32_MAX && FromRaw(n).Some? {
        assert SetRequest(Some(Right(n))) == Ok(Some(FromRaw(n).value));
      }
    case _ =>
  }

  /** Passing a signal's number to `set` is the same as passing the Signal object, or calling its `set`. */
  lemma SetNumberIsSetObject(o: Oracle, w: World, obj: WrappedSignal)
    ensures Set(o, w, PyInt(Raw(obj.signal))) == Set(o, w, PySignal(obj)) == SetMethod(o, w, obj)
  {
    FromRawRaw(obj.signal);
  }

  /** `set(None)` and `set(0)` both clear the parent-death signal. */
  lemma SetZeroIsSetNone(o: Oracle, w: World)
    ensures Set(o, w, PyInt(0)) == Set(o, w, PyNone)
  {
  }

  // ---------------------------------------------------------------------------
  // The wrapper table

  /** make_signals' slots as values: slot i wraps the signal numbered i, slot 0 SIGHUP. */
  function SignalTable(): (t: seq<Signal>)
    ensures |t| == SIGNAL_COUNT
  {
    seq(SIGNAL_COUNT, i requires 0 <= i < SIGNAL_COUNT => FromRaw(i).GetOr(Hup))
  }

  /** from_signal indexes the table in bounds, and the slot it reads holds that very signal. */
  lemma SignalTableIndexing(s: Signal)
    ensures 0 <= Raw(s) < |SignalTable()|
    ensures SignalTable()[Raw(s)] == s
  {
    FromRawRaw(s);
  }

  /** The one slot no signal is numbered by is slot 0, and it holds SIGHUP. */
  lemma SignalTableFiller()
    ensures SignalTable()[0] == Hup
    ensures forall i :: 1 <= i < SIGNAL_COUNT ==> Raw(SignalTable()[i]) == i
  {
  }

  /** A table of wrapper objects that matches SignalTable slot by slot. */
  predicate WrapsTable(objects: seq<WrappedSignal>) {
    |objects| == SIGNAL_COUNT && forall i :: 0 <= i < |objects| ==> objects[i].signal == SignalTable()[i]
  }

  /** The first slot whose object cannot be allocated, if any. */
  predicate AllocationFails(newFails: int -> bool) {
    exists i :: 0 <= i < SIGNAL_COUNT && newFails(i)
  }

  /**
   * make_signals: allocate the 32 wrapper objects in slot order, stopping at the first
   * allocation that fails. `newFails(i)` says whether the interpreter fails to
   * allocate the object for slot i.
   */
  method MakeSignals(newFails: int -> bool) returns (r: Result<seq<WrappedSignal>, PyError>)
    ensures r.Err? <==> AllocationFails(newFails)
    ensures r.Err? ==> r.error == MemoryError
    ensures r.Ok? ==> WrapsTable(r.value) && forall i :: 0 <= i < |r.value| ==> fresh(r.value[i])
  {
    var objects: seq<WrappedSignal> := [];
    var i := 0;
    while i < SIGNAL_COUNT
      invariant 0 <= i <= SIGNAL_COUNT && |objects| == i
      invariant forall j :: 0 <= j < i ==> !newFails(j)
      invariant forall j :: 0 <= j < i ==> objects[j].signal == SignalTable()[j] && fresh(objects[j])
    {
      if newFails(i) {
        return Err(MemoryError);
      }
      var obj := new WrappedSignal(FromRaw(i).GetOr(Hup));
      objects := objects + [obj];
      i := i + 1;
    }
    return Ok(objects);
  }

  /** The `static SIGNALS: OnceLock<...>` of from_signal: empty until its first use. */
  class SignalCache {
    var cell: Option<Result<seq<WrappedSignal>, PyError>>

    /** Once filled, the cell holds make_signals' table or its MemoryError. */
    predicate Valid()
      reads this
    {
      cell.Some? ==>
        match cell.value
        case Ok(objects) => WrapsTable(objects)
        case Err(e) => e == MemoryError
    }

    constructor ()
      ensures cell.None? && Valid()
    {
      cell := None;
    }

    /**
     * from_signal: fill the cell on first use, then hand out the object of slot
     * `Raw(s)`, or the error the filling produced. A filled cell never changes, so
     * every later call for the same signal returns the same object.
     */
    method FromSignal(s: Signal, newFails: int -> bool) returns (r: Result<WrappedSignal, PyError>)
      requires Valid()
      modifies this
      ensures Valid() && cell.Some?
      ensures old(cell).Some? ==> cell == old(cell)
      ensures old(cell).None? ==> (cell.value.Err? <==> AllocationFails(newFails))
      ensures old(cell).None? && cell.value.Ok? ==> forall i :: 0 <= i < SIGNAL_COUNT ==> fresh(cell.value.value[i])
      ensures match cell.value
              case Ok(objects) => r == Ok(objects[Raw(s)]) && r.value.signal == s
              case Err(e) => r == Err(e)
    {
      if cell.None? {
        var made := MakeSignals(newFails);
        cell := Some(made);
      }
      match cell.value
      case Ok(objects) =>
        SignalTableIndexing(s);
        r := Ok(objects[Raw(s)]);
      case Err(e) =>
        r := Err(e);
    }
  }

  // ---------------------------------------------------------------------------
  // __new__ and get

  /**
   * `Signal(value)`: a Signal object comes back unchanged, a valid number gives the
   * cached object of its signal, and any other i32 a ValueError.
   */
  method New(cache: SignalCache, value: PyValue, newFails: int -> bool) returns (r: Result<WrappedSignal, PyError>)
    requires cache.Valid()
    modifies cache
    ensures cache.Valid()
    ensures old(cache.cell).Some? ==> cache.cell == old(cache.cell)
    ensures match value
            case PySignal(obj) => r == Ok(obj) && cache.cell == old(cache.cell)
            case PyInt(n) =>
              if I32_MIN <= n <= I32_MAX && FromRaw(n).Some? then
                cache.cell.Some? &&
                (old(cache.cell).None? ==> (cache.cell.value.Err? <==> AllocationFails(newFails))) &&
                match cache.cell.value
                case Ok(objects) => r == Ok(objects[n]) && objects[n].signal == FromRaw(n).value
                case Err(e) => r == Err(e)
              else r == Err(if I32_MIN <= n <= I32_MAX then ValueError(n) else TypeError) && cache.cell == old(cache.cell)
            case _ => r == Err(TypeError) && cache.cell == old(cache.cell)
  {
    var arg := ExtractEither(value);
    if arg.Err? {
      return Err(arg.error);
    }
    match arg.value
    case Left(obj) =>
      r := Ok(obj);
    case Right(n) =>
      var signal := FromRaw(n);
      if signal.None? {
        return Err(ValueError(n));
      }
      RawFromRaw(n);
      r := cache.FromSignal(signal.value, newFails);
  }

  /** do_get (and the `get` function and static method): wrap what PR_GET_PDEATHSIG reported. */
  method DoGet(cache: SignalCache, status: Result<Option<Signal>, int>, newFails: int -> bool)
    returns (r: Result<Option<WrappedSignal>, PyError>)
    requires cache.Valid()
    modifies cache
    ensures cache.Valid()
    ensures old(cache.cell).Some? ==> cache.cell == old(cache.cell)
    ensures match status
            case Err(errno) => r == Err(OSError(errno)) && cache.cell == old(cache.cell)
            case Ok(None) => r == Ok(None) && cache.cell == old(cache.cell)
            case Ok(Some(s)) =>
              cache.cell.Some? &&
              (old(cache.cell).None? ==> (cache.cell.value.Err? <==> AllocationFails(newFails))) &&
              match cache.cell.value
              case Ok(objects) => r == Ok(Some(objects[Raw(s)])) && objects[Raw(s)].signal == s
              case Err(e) => r == Err(e)
  {
    match status
    case Err(errno) =>
      r := Err(OSError(errno));
    case Ok(None) =>
      r := Ok(None);
    case Ok(Some(s)) =>
      var obj := cache.FromSignal(s, newFails);
      match obj
      case Ok(o) => r := Ok(Some(o));
      case Err(e) => r := Err(e);
  }
}
