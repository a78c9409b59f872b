/** The wasm module's linear memory as the shim and libsvm use it.

    Dafny's own allocator stands for `malloc`; what Dafny cannot express,
    a release, is recorded in an event log kept by the `Heap` object. Every
    block handed out by `malloc` and every `free` appends one event, so the
    allocation discipline of an operation is read off the events it adds. */
module Memory {

  datatype Event =
    | Malloc(block: object)
    | Free(block: object)
      /** `svm_destroy_param`: libsvm releases what it keeps inside a parameter
          struct; the struct itself stays allocated. */
    | DestroyParam(param: object)

  /** The live blocks after one more event. */
  function Step(live: set<object>, e: Event): set<object>
  {
    match e
    case Malloc(b) => live + {b}
    case Free(b) => live - {b}
    case DestroyParam(_) => live
  }

  /** The blocks that the log has allocated and not yet freed. */
  function Live(log: seq<Event>): set<object>
  {
    if log == [] then {} else Step(Live(log[..|log| - 1]), log[|log| - 1])
  }

  /** A block used as call-scoped scratch: allocated, then freed, nothing else. */
  lemma {:induction false} ScratchLeavesLiveUnchanged(log: seq<Event>, b: object)
    requires b !in Live(log)
    ensures Live(log + [Malloc(b), Free(b)]) == Live(log)
  {
    var mid := log + [Malloc(b)];
    assert (log + [Malloc(b), Free(b)])[..|mid|] == mid;
    assert mid[..|log|] == log;
  }

  /** One more event changes the live set as that event says. */
  lemma LiveSnoc(log: seq<Event>, e: Event)
    ensures Live(log + [e]) == Step(Live(log), e)
  {
  }

  /** Only a block the log has allocated can be live. */
  lemma {:induction false} LiveMalloced(log: seq<Event>, b: object)
    ensures b in Live(log) ==> Malloc(b) in log
  {
    if log != [] {
      var init := log[..|log| - 1];
      LiveMalloced(init, b);
      assert log == init + [log[|log| - 1]];
    }
  }

  class Heap {
    /** Everything that happened to the memory, oldest first. */
    var log: seq<Event>

    constructor ()
      ensures log == []
    {
      log := [];
    }

    /** `MALLOC(type, n)`: a fresh block of `n` elements whose contents are unspecified. */
    method Alloc<T(0)>(n: nat) returns (a: array<T>)
      modifies this
      ensures fresh(a) && a.Length == n
      ensures log == old(log) + [Malloc(a)]
    {
      a := new T[n];
      log := log + [Malloc(a)];
    }

    /** Records the `malloc` of a struct that the caller has just created. */
    method NoteMalloc(b: object)
      modifies this
      ensures log == old(log) + [Malloc(b)]
    {
      log := log + [Malloc(b)];
    }

    /** `free(b)`; freeing a null pointer does nothing, as in C. */
    method Release(b: object?)
      modifies this
      ensures log == old(log) + Freed(b)
    {
      log := log + Freed(b);
    }

    method NoteDestroyParam(p: object)
      modifies this
      ensures log == old(log) + [DestroyParam(p)]
    {
      log := log + [DestroyParam(p)];
    }
  }

  /** The events that `free(b)` adds to the log. */
  function Freed(b: object?): seq<Event>
  {
    if b == null then [] else [Free(b)]
  }
}
