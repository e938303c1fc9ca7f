/**
 * bytes_list_to_cstring_array: turns a Python list of bytes objects into the
 * NULL-terminated `char **` array that execve and its relatives read.
 *
 * A string is the byte sequence of one bytes object; the array slot holding it is
 * `Some(bytes)`, the terminator is `None`.
 */
module CStringArray {
  import opened Wrappers
  import opened Host

  /** sizeof(char *) on the LP64 targets the module is built for. */
  const POINTER_SIZE: nat := 8

  /** The array the function fills: one slot per string, then NULL. */
  function Terminated(items: seq<Bytes>): (r: seq<Option<Bytes>>)
    ensures |r| == |items| + 1
  {
    seq(|items|, i requires 0 <= i < |items| => Some(items[i])) + [None]
  }

  /** How exec reads a `char **`: the strings before the first NULL. */
  function UntilNull(a: seq<Option<Bytes>>): seq<Bytes>
    decreases |a|
  {
    if a == [] || a[0].None? then [] else [a[0].value] + UntilNull(a[1..])
  }

  /** exec reads back exactly the list the array was built from. */
  lemma {:induction false} UntilNullTerminated(items: seq<Bytes>)
    ensures UntilNull(Terminated(items)) == items
    decreases |items|
  {
    if items != [] {
      assert Terminated(items)[1..] == Terminated(items[1..]);
      UntilNullTerminated(items[1..]);
    }
  }

  /** The array holds the strings in order, and its only NULL is the last slot. */
  lemma TerminatedShape(items: seq<Bytes>)
    ensures Terminated(items)[|items|] == None
    ensures forall i :: 0 <= i < |items| ==> Terminated(items)[i] == Some(items[i])
  {
  }

  /** The outcome: no list (NULL, no error), out of memory (NULL, MemoryError), or an array. */
  datatype ArrayResult = NullList | NoMemory | Filled(contents: seq<Option<Bytes>>)

  /** The function on values: the world after it and what it returned. */
  function CStringArrayOf(o: Oracle, list: Option<seq<Bytes>>, w: World): (World, ArrayResult) {
    match list
    case None => (w, NullList)
    case Some(items) =>
      var (w1, reply) := Call(o, w, Malloc(POINTER_SIZE * (|items| + 1)));
      if reply.ret == 0 then (w1, NoMemory) else (w1, Filled(Terminated(items)))
  }

  /** What the C function hands back: NULL or a fresh array. */
  datatype CArray = Null | Array(a: array<Option<Bytes>>)

  /** bytes_list_to_cstring_array. */
  method BytesListToCStringArray(list: Option<seq<Bytes>>, host: Host) returns (r: CArray, noMemory: bool)
    modifies host
    ensures var (w, res) := CStringArrayOf(host.oracle, list, old(host.View()));
            host.View() == w &&
            (noMemory <==> res.NoMemory?) &&
            (r.Array? <==> res.Filled?) &&
            (r.Array? ==> fresh(r.a) && r.a[..] == res.contents)
  {
    if list.None? {
      return Null, false;
    }
    var items := list.value;
    var length := |items|;
    var result := host.Do(Malloc(POINTER_SIZE * (length + 1)));
    if result == 0 {
      return Null, true;
    }
    var a := new Option<Bytes>[length + 1];
    a[length] := None;
    for index := 0 to length
      modifies a
      invariant a[length] == None
      invariant forall i :: 0 <= i < index ==> a[i] == Some(items[i])
    {
      a[index] := Some(items[index]);
    }
    assert a[..] == Terminated(items);
    return Array(a), false;
  }
}
