/**
 * The argument converters of pdeathsignal.c: the functions PyArg_ParseTupleAndKeywords
 * calls, through "O&", to turn Python objects into C values.
 *
 * Each converter reports success and leaves its output pointer set; `Conversion.out`
 * is the value the output holds after the call (the caller's previous value when
 * the converter did not write it).
 */
module Converters {
  import opened Wrappers
  import opened Bits

  /** glibc's _NSIG on Linux: the largest signal number (64) plus one. */
  const NSIG: int := 65

  /** Range of the C `long` that PyLong_AsLong converts to (LP64). */
  const LONG_MIN: int := -0x8000_0000_0000_0000
  const LONG_MAX: int := 0x7fff_ffff_ffff_ffff

  /** One more than the largest `unsigned long long`. */
  const ULLONG_LIMIT: int := 0x1_0000_0000_0000_0000

  /** What PyObject_IsTrue makes of an object: true, false or an exception (-1). */
  datatype Truth = Truthy | Falsy | Raises

  /**
   * The Python objects the converters are handed, as far as the converters look at them.
   * `bool` is an `int` subclass in Python and is a PyInt here (True is PyInt(1)).
   * An iterable yields `items` and then either stops or raises (`failsAtEnd`).
   */
  datatype PyObj =
    | PyNone
    | PyInt(value: int)
    | PyIterable(items: seq<PyObj>, truth: Truth, failsAtEnd: bool)
    | PyOther(truth: Truth)

  /** An argument as a converter receives it: a NULL pointer or an object. */
  datatype Arg = Missing | Passed(obj: PyObj)

  /** A converter's verdict and the value its output pointer holds afterwards. */
  datatype Conversion<T> = Conversion(ok: bool, out: T)

  /** `!obj || obj == Py_None`: the test every converter makes first. */
  predicate IsAbsent(arg: Arg) {
    arg.Missing? || arg.obj.PyNone?
  }

  function IsTrue(o: PyObj): Truth {
    match o
    case PyNone => Falsy
    case PyInt(v) => if v != 0 then Truthy else Falsy
    case PyIterable(_, t, _) => t
    case PyOther(t) => t
  }

  /** An object pylong_to_signum accepts: an integer in 0 .. _NSIG. */
  predicate IsSignalNumber(o: PyObj) {
    o.PyInt? && 0 <= o.value <= NSIG
  }

  /**
   * pylong_to_signum: PyLong_AsLong, then the range test 0 <= value <= _NSIG.
   * A non-integer, or one that does not fit a `long`, makes PyLong_AsLong return -1,
   * which the range test rejects as well.
   */
  function PyLongToSignum(obj: PyObj, prior: int): (r: Conversion<int>)
    ensures r.ok <==> IsSignalNumber(obj)
    ensures r.ok ==> r.out == obj.value
    ensures !r.ok ==> r.out == prior
  {
    var value := if obj.PyInt? && LONG_MIN <= obj.value <= LONG_MAX then obj.value else -1;
    if value < 0 || value > NSIG then Conversion(false, prior) else Conversion(true, value)
  }

  /** signal_x_convert: an absent argument yields the default `x`. */
  function SignalXConvert(arg: Arg, prior: int, x: int): (r: Conversion<int>)
    ensures IsAbsent(arg) ==> r == Conversion(true, x)
    ensures !IsAbsent(arg) ==> r == PyLongToSignum(arg.obj, prior)
  {
    if IsAbsent(arg) then Conversion(true, x) else PyLongToSignum(arg.obj, prior)
  }

  /** signal_0_convert, used by setpdeathsignal: absent means signal 0 ("none"). */
  function Signal0Convert(arg: Arg, prior: int): (r: Conversion<int>)
    ensures r.ok ==> 0 <= r.out <= NSIG
    ensures r.ok <==> IsAbsent(arg) || IsSignalNumber(arg.obj)
    ensures IsAbsent(arg) ==> r == Conversion(true, 0)
    ensures r.ok && !IsAbsent(arg) ==> r.out == arg.obj.value
    ensures !r.ok ==> r.out == prior
  {
    SignalXConvert(arg, prior, 0)
  }

  /** signal_m1_convert, used by cloneandexecve: absent means -1, "leave unchanged". */
  function SignalM1Convert(arg: Arg, prior: int): (r: Conversion<int>)
    ensures r.ok ==> -1 <= r.out <= NSIG
    ensures r.ok <==> IsAbsent(arg) || IsSignalNumber(arg.obj)
    ensures IsAbsent(arg) ==> r == Conversion(true, -1)
    ensures r.ok && !IsAbsent(arg) ==> r.out == arg.obj.value
    ensures !r.ok ==> r.out == prior
  {
    SignalXConvert(arg, prior, -1)
  }

  /** bool_false_converter: absent is false, otherwise the object's truth value. */
  function BoolFalseConverter(arg: Arg, prior: bool): (r: Conversion<bool>)
    ensures r.ok <==> IsAbsent(arg) || IsTrue(arg.obj) != Raises
    ensures IsAbsent(arg) ==> r.out == false
    ensures !IsAbsent(arg) && r.ok ==> r.out == (IsTrue(arg.obj) == Truthy)
    ensures !r.ok ==> r.out == prior
  {
    if IsAbsent(arg) then Conversion(true, false)
    else match IsTrue(arg.obj)
      case Raises => Conversion(false, prior)
      case Truthy => Conversion(true, true)
      case Falsy => Conversion(true, false)
  }

  // ---------------------------------------------------------------------------
  // sigign_converter

  /**
   * The outcome of sigign_converter. `Stored(m)` writes `m` to the output; `Refused`
   * returns false and leaves the output alone; `UndefinedShift(n)` is reached when an
   * element n >= 32 passes the range test: `1 << (n - 1)` is then a shift of a 32-bit
   * `int` into or past its sign bit, which the C standard leaves undefined.
   */
  datatype MaskConversion = Stored(mask: nat) | Refused | UndefinedShift(signum: int)

  /** The output value after a conversion that had defined behaviour. */
  function Written(c: MaskConversion, prior: nat): nat {
    if c.Stored? then c.mask else prior
  }

  /** A signal number whose bit `1 << (n - 1)` sigign_converter can form: 0 .. 31. */
  predicate IsMaskable(o: PyObj) {
    o.PyInt? && 0 <= o.value <= 31
  }

  predicate AllMaskable(items: seq<PyObj>) {
    forall i :: 0 <= i < |items| ==> IsMaskable(items[i])
  }

  /**
   * The iterator loop of sigign_converter, from element `items[0]` on with `accu` OR-ed
   * so far: each element goes through pylong_to_signum; 0 adds nothing; n adds bit
   * n - 1; when the iterator is exhausted the accumulated mask is stored, unless the
   * iterator ended with an exception other than StopIteration.
   */
  function Accumulate(items: seq<PyObj>, accu: nat, failsAtEnd: bool): MaskConversion
    decreases |items|
  {
    if items == [] then
      if failsAtEnd then Refused else Stored(accu)
    else
      var c := PyLongToSignum(items[0], 0);
      if !c.ok then Refused
      else if c.out == 0 then Accumulate(items[1..], accu, failsAtEnd)
      else if c.out >= 32 then UndefinedShift(c.out)
      else Accumulate(items[1..], Or(accu, Pow2(c.out - 1)), failsAtEnd)
  }

  /** The whole of sigign_converter on one argument. */
  function SigignConvert(arg: Arg): (r: MaskConversion)
    ensures IsAbsent(arg) ==> r == Stored(0)
    ensures !IsAbsent(arg) && IsTrue(arg.obj) == Falsy ==> r == Stored(0)
    ensures !IsAbsent(arg) && IsTrue(arg.obj) == Raises ==> r == Refused
    ensures !IsAbsent(arg) && arg.obj.PyInt? && 0 < arg.obj.value < ULLONG_LIMIT ==>
              r == Stored(arg.obj.value as nat)
    ensures !IsAbsent(arg) && arg.obj.PyInt? && (arg.obj.value < 0 || arg.obj.value >= ULLONG_LIMIT) ==>
              r == Refused
    ensures !IsAbsent(arg) && arg.obj.PyOther? ==> r.Refused? || r == Stored(0)
  {
    if IsAbsent(arg) then Stored(0)
    else
      var obj := arg.obj;
      match IsTrue(obj)
      case Raises => Refused
      case Falsy => Stored(0)
      case Truthy =>
        match obj
        // PyLong_AsUnsignedLongLong: OverflowError (not a TypeError) for a negative or
        // too large int, which makes the converter fail.
        case PyInt(v) => if 0 <= v < ULLONG_LIMIT then Stored(v as nat) else Refused
        // A TypeError is cleared and the object is iterated.
        case PyIterable(items, _, failsAtEnd) => Accumulate(items, 0, failsAtEnd)
        // PyObject_GetIter fails.
        case _ => Refused
  }

  /**
   * sigign_converter. On the iterable path the loop reads the elements in order and
   * ORs their bits into `accu`; the output is written only when the whole conversion
   * succeeds.
   */
  method SigignConverter(arg: Arg, prior: nat) returns (r: MaskConversion, result: nat)
    ensures r == SigignConvert(arg)
    ensures result == Written(r, prior)
  {
    result := prior;
    if IsAbsent(arg) {
      r, result := Stored(0), 0;
      return;
    }
    var obj := arg.obj;
    var truthy := IsTrue(obj);
    if truthy == Raises {
      return Refused, result;
    } else if truthy == Falsy {
      r, result := Stored(0), 0;
      return;
    }
    if obj.PyInt? {
      if 0 <= obj.value < ULLONG_LIMIT {
        r, result := Stored(obj.value as nat), obj.value as nat;
      } else {
        r := Refused;
      }
      return;
    }
    if !obj.PyIterable? {
      return Refused, result;
    }

    var items := obj.items;
    var accu: nat := 0;
    var i := 0;
    while i < |items|
      invariant 0 <= i <= |items|
      invariant Accumulate(items, 0, obj.failsAtEnd) == Accumulate(items[i..], accu, obj.failsAtEnd)
    {
      var c := PyLongToSignum(items[i], 0);
      assert items[i..][1..] == items[i + 1..];
      if !c.ok {
        return Refused, result;
      }
      if c.out > 0 {
        if c.out >= 32 {
          return UndefinedShift(c.out), result;
        }
        accu := Or(accu, Pow2(c.out - 1));
      }
      i := i + 1;
    }
    if obj.failsAtEnd {
      return Refused, result;
    }
    r, result := Stored(accu), accu;
  }

  // ---------------------------------------------------------------------------
  // Properties of the iterable path

  /** The bit an element contributes: none for 0, bit n - 1 for n. */
  function HeadBit(o: PyObj): nat
    requires IsMaskable(o)
  {
    if o.value == 0 then 0 else Pow2(o.value - 1)
  }

  /** The OR of bit n - 1 over the elements n > 0 of a sequence of maskable numbers. */
  function MaskOf(items: seq<PyObj>): nat
    requires AllMaskable(items)
    decreases |items|
  {
    if items == [] then 0 else Or(HeadBit(items[0]), MaskOf(items[1..]))
  }

  lemma AllMaskableTail(items: seq<PyObj>)
    requires items != [] && AllMaskable(items)
    ensures IsMaskable(items[0]) && AllMaskable(items[1..])
  {
    forall i | 0 <= i < |items[1..]| ensures IsMaskable(items[1..][i]) {
      assert items[1..][i] == items[i + 1];
    }
  }

  lemma AccumulateStep(items: seq<PyObj>, accu: nat, failsAtEnd: bool)
    requires items != [] && IsMaskable(items[0])
    ensures Accumulate(items, accu, failsAtEnd) == Accumulate(items[1..], Or(accu, HeadBit(items[0])), failsAtEnd)
  {
    if items[0].value == 0 {
      assert Or(accu, 0) == accu;
    }
  }


  /** On maskable elements the loop ORs exactly MaskOf into what it has accumulated. */
  lemma {:induction false} AccumulateMaskable(items: seq<PyObj>, accu: nat, failsAtEnd: bool)
    requires AllMaskable(items)
    ensures Accumulate(items, accu, failsAtEnd) ==
            if failsAtEnd then Refused else Stored(Or(accu, MaskOf(items)))
  {
    if items == [] {
      assert Or(accu, 0) == accu;
    } else {
      AllMaskableTail(items);
      var b := HeadBit(items[0]);
      AccumulateStep(items, accu, failsAtEnd);
      AccumulateMaskable(items[1..], Or(accu, b), failsAtEnd);
      OrAssoc(accu, b, MaskOf(items[1..]));
    }
  }

  /** Bit k of MaskOf(items) is set exactly when signal k + 1 is one of the elements. */
  lemma {:induction false} MaskOfMembers(items: seq<PyObj>, k: nat)
    requires AllMaskable(items)
    ensures HasBit(MaskOf(items), k) <==> k < 31 && PyInt(k + 1) in items
  {
    if items == [] {
      NoBitOfZero(k);
    } else {
      AllMaskableTail(items);
      MaskOfMembers(items[1..], k);
      HasBitOr(HeadBit(items[0]), MaskOf(items[1..]), k);
      HeadBitMembers(items[0], k);
      assert items == [items[0]] + items[1..];
      assert PyInt(k + 1) in items <==> items[0] == PyInt(k + 1) || PyInt(k + 1) in items[1..];
    }
  }



  lemma HeadBitMembers(o: PyObj, k: nat)
    requires IsMaskable(o)
    ensures HasBit(HeadBit(o), k) <==> o == PyInt(k + 1)
  {
    if o.value == 0 {
      NoBitOfZero(k);
    } else {
      SingleBit(o.value - 1, k);
    }
  }

  /**
   * The iterable path stores a mask exactly when every element is an integer in
   * 0 .. 31 and the iterator stops cleanly; the mask then has bit k set exactly when
   * k + 1 is among the elements.
   */
  lemma IgnoreMaskFromSignals(items: seq<PyObj>, failsAtEnd: bool, k: nat)
    requires AllMaskable(items) && !failsAtEnd
    ensures Accumulate(items, 0, failsAtEnd).Stored?
    ensures HasBit(Accumulate(items, 0, failsAtEnd).mask, k) <==> k < 31 && PyInt(k + 1) in items
  {
    AccumulateMaskable(items, 0, failsAtEnd);
    MaskOfMembers(items, k);
  }

  /**
   * The first element that is not a number in 0 .. 31 decides the outcome: outside
   * 0 .. _NSIG (or not an integer) the conversion is refused, and in 32 .. _NSIG the
   * shift is undefined. Later elements and the end of the iterator do not matter.
   */
  lemma {:induction false} FirstUnmaskableDecides(items: seq<PyObj>, accu: nat, failsAtEnd: bool, j: nat)
    requires j < |items| && !IsMaskable(items[j])
    requires AllMaskable(items[..j])
    ensures Accumulate(items, accu, failsAtEnd) ==
            if IsSignalNumber(items[j]) then UndefinedShift(items[j].value) else Refused
  {
    if j > 0 {
      assert IsMaskable(items[..j][0]);
      var rest := items[1..][..j - 1];
      assert rest == items[..j][1..];
      AllMaskableTail(items[..j]);
      var n := items[0].value;
      if n == 0 {
        FirstUnmaskableDecides(items[1..], accu, failsAtEnd, j - 1);
      } else {
        FirstUnmaskableDecides(items[1..], Or(accu, Pow2(n - 1)), failsAtEnd, j - 1);
      }
    }
  }

  /** Listing a signal a second time, anywhere after its first listing, changes nothing. */
  lemma DuplicateIsNoOp(a: seq<PyObj>, x: PyObj, b: seq<PyObj>, c: seq<PyObj>, failsAtEnd: bool)
    ensures Accumulate(a + [x] + b + [x] + c, 0, failsAtEnd) ==
            Accumulate(a + [x] + b + c, 0, failsAtEnd)
  {
    var once := a + [x] + b + c;
    var p := |a| + 1 + |b|;
    assert once[..p] == a + [x] + b && once[p..] == c && once[|a|] == x;
    assert a + [x] + b + [x] + c == once[..p] + [once[|a|]] + once[p..];
    CopyIsNoOp(once, |a|, p, failsAtEnd);
  }

  /** `once` with a copy of its element q inserted at position p, after q. */
  function WithCopy(once: seq<PyObj>, q: nat, p: nat): seq<PyObj>
    requires q < p <= |once|
  {
    once[..p] + [once[q]] + once[p..]
  }

  lemma CopyIsNoOp(once: seq<PyObj>, q: nat, p: nat, failsAtEnd: bool)
    requires q < p <= |once|
    ensures Accumulate(WithCopy(once, q, p), 0, failsAtEnd) == Accumulate(once, 0, failsAtEnd)
  {
    var twice := WithCopy(once, q, p);
    if AllMaskable(once) {
      CopyKeepsMaskable(once, q, p);
      AccumulateMaskable(twice, 0, failsAtEnd);
      AccumulateMaskable(once, 0, failsAtEnd);
      forall k: nat ensures HasBit(MaskOf(twice), k) <==> HasBit(MaskOf(once), k) {
        MaskOfMembers(twice, k);
        MaskOfMembers(once, k);
        CopyKeepsMembers(once, q, p, PyInt(k + 1));
      }
      BitsDetermine(MaskOf(twice), MaskOf(once));
    } else {
      var j := FirstUnmaskable(once);
      FirstUnmaskableDecides(once, 0, failsAtEnd, j);
      if j < p {
        assert twice[..j] == once[..j] && twice[j] == once[j];
        FirstUnmaskableDecides(twice, 0, failsAtEnd, j);
      } else {
        CopyBeforeUnmaskable(once, q, p, j);
        FirstUnmaskableDecides(twice, 0, failsAtEnd, j + 1);
      }
    }
  }

  lemma CopyKeepsMembers(once: seq<PyObj>, q: nat, p: nat, y: PyObj)
    requires q < p <= |once|
    ensures y in WithCopy(once, q, p) <==> y in once
  {
    var twice := WithCopy(once, q, p);
    if y in twice {
      var i :| 0 <= i < |twice| && twice[i] == y;
      if i < p { assert once[i] == y; }
      else if i == p { assert once[q] == y; }
      else { assert once[i - 1] == y; }
    }
    if y in once {
      var i :| 0 <= i < |once| && once[i] == y;
      if i < p { assert twice[i] == y; } else { assert twice[i + 1] == y; }
    }
  }

  lemma CopyKeepsMaskable(once: seq<PyObj>, q: nat, p: nat)
    requires q < p <= |once| && AllMaskable(once)
    ensures AllMaskable(WithCopy(once, q, p))
  {
    var twice := WithCopy(once, q, p);
    forall i | 0 <= i < |twice| ensures IsMaskable(twice[i]) {
      if i < p { assert twice[i] == once[i]; }
      else if i == p { assert twice[i] == once[q]; }
      else { assert twice[i] == once[i - 1]; }
    }
  }

  lemma CopyBeforeUnmaskable(once: seq<PyObj>, q: nat, p: nat, j: nat)
    requires q < p <= j < |once| && AllMaskable(once[..j])
    ensures WithCopy(once, q, p)[j + 1] == once[j]
    ensures AllMaskable(WithCopy(once, q, p)[..j + 1])
  {
    var prefix := WithCopy(once, q, p)[..j + 1];
    assert IsMaskable(once[..j][q]);
    forall i | 0 <= i < |prefix| ensures IsMaskable(prefix[i]) {
      if i < p { assert prefix[i] == once[..j][i]; }
      else if i == p { assert prefix[i] == once[..j][q]; }
      else { assert prefix[i] == once[..j][i - 1]; }
    }
  }

  /** A 0 element anywhere in the list changes nothing. */
  lemma ZeroIsNoOp(before: seq<PyObj>, after: seq<PyObj>, failsAtEnd: bool)
    ensures Accumulate(before + [PyInt(0)] + after, 0, failsAtEnd) ==
            Accumulate(before + after, 0, failsAtEnd)
  {
    ZeroIsNoOpFrom(before, after, 0, failsAtEnd);
  }

  lemma {:induction false} ZeroIsNoOpFrom(before: seq<PyObj>, after: seq<PyObj>, accu: nat, failsAtEnd: bool)
    ensures Accumulate(before + [PyInt(0)] + after, accu, failsAtEnd) ==
            Accumulate(before + after, accu, failsAtEnd)
    decreases |before|
  {
    if before == [] {
      assert (before + [PyInt(0)] + after)[1..] == after;
      assert before + after == after;
    } else {
      assert (before + [PyInt(0)] + after)[1..] == before[1..] + [PyInt(0)] + after;
      assert (before + after)[1..] == before[1..] + after;
      assert (before + [PyInt(0)] + after)[0] == before[0] == (before + after)[0];
      var c := PyLongToSignum(before[0], 0);
      if c.ok && 0 < c.out < 32 {
        ZeroIsNoOpFrom(before[1..], after, Or(accu, Pow2(c.out - 1)), failsAtEnd);
      } else if c.ok && c.out == 0 {
        ZeroIsNoOpFrom(before[1..], after, accu, failsAtEnd);
      }
    }
  }

  function FirstUnmaskable(items: seq<PyObj>): (j: nat)
    requires !AllMaskable(items)
    ensures j < |items| && !IsMaskable(items[j]) && AllMaskable(items[..j])
  {
    if !IsMaskable(items[0]) then 0
    else
      assert !AllMaskable(items[1..]) by {
        var i :| 0 <= i < |items| && !IsMaskable(items[i]);
        assert items[1..][i - 1] == items[i];
      }
      var j := FirstUnmaskable(items[1..]);
      var prefix := items[..j + 1];
      assert AllMaskable(prefix) by {
        forall i | 0 <= i < j + 1 ensures IsMaskable(prefix[i]) {
          if i > 0 { assert prefix[i] == items[1..][..j][i - 1]; }
        }
      }
      j + 1
  }

  lemma {:induction false} MaskOfAppend(a: seq<PyObj>, b: seq<PyObj>)
    requires AllMaskable(a) && AllMaskable(b) && AllMaskable(a + b)
    ensures MaskOf(a + b) == Or(MaskOf(a), MaskOf(b))
    decreases |a|
  {
    if a == [] {
      assert a + b == b;
    } else {
      assert (a + b)[1..] == a[1..] + b;
      assert AllMaskable(a[1..]) by {
        forall i | 0 <= i < |a[1..]| ensures IsMaskable(a[1..][i]) {
          assert a[1..][i] == a[i + 1];
        }
      }
      assert AllMaskable(a[1..] + b) by {
        forall i | 0 <= i < |a[1..] + b| ensures IsMaskable((a[1..] + b)[i]) {
          assert (a[1..] + b)[i] == (a + b)[i + 1];
        }
      }
      MaskOfAppend(a[1..], b);
      AllMaskableTail(a);
      OrAssoc(HeadBit(a[0]), MaskOf(a[1..]), MaskOf(b));
    }
  }

  /** The iterable path only ever sets bits 0 .. 30. */
  lemma {:induction false} MaskOfBound(items: seq<PyObj>)
    requires AllMaskable(items)
    ensures MaskOf(items) < Pow2(31)
    decreases |items|
  {
    if items != [] {
      AllMaskableTail(items);
      MaskOfBound(items[1..]);
      if items[0].value != 0 {
        Pow2Increasing(items[0].value - 1, 31);
      }
      OrBound(HeadBit(items[0]), MaskOf(items[1..]), 31);
    }
  }

  /** Whatever sigign_converter stores fits the `uint64_t` it writes. */
  lemma StoredMaskFits(arg: Arg)
    ensures SigignConvert(arg).Stored? ==> SigignConvert(arg).mask < ULLONG_LIMIT
  {
    if !IsAbsent(arg) && IsTrue(arg.obj) == Truthy && arg.obj.PyIterable? {
      var items, failsAtEnd := arg.obj.items, arg.obj.failsAtEnd;
      if AllMaskable(items) {
        AccumulateMaskable(items, 0, failsAtEnd);
        MaskOfBound(items);
        Pow2Increasing(31, 64);
        Pow2Of64();
      } else {
        FirstUnmaskableDecides(items, 0, failsAtEnd, FirstUnmaskable(items));
      }
    }
  }
}
