/** The `multidispatch` wrapper of pandera/api/base/parses.py: an ordered
    dispatch table keyed by signature, its `__code__` property (the code of the
    first registered function) and its pickling protocol, in which
    `__reduce__` saves the registered functions as a list and `__setstate__`
    re-registers them in order on a table rebuilt from the base function.
    How the foreign dispatch library resolves a call is not modelled: a
    restored table equal to the saved one dispatches identically. */
module MultiDispatch {
  import opened Wrappers
  import opened PyObjects

  /** Signatures are keys: no two registered functions share one, and the
      table is never empty, its first key being that of the base function. */
  ghost predicate Valid(d: Dispatcher)
  {
    && |d.entries| > 0
    && d.entries[0].signature == d.wrapped.signature
    && forall i, j :: 0 <= i < j < |d.entries| ==> d.entries[i].signature != d.entries[j].signature
  }

  /** Position of the entry registered under `sig`, if any. */
  function IndexOfSignature(entries: seq<FunctionDef>, sig: Signature): (r: Option<nat>)
    ensures r.Some? ==> r.value < |entries| && entries[r.value].signature == sig
    ensures r.Some? ==> forall j :: 0 <= j < r.value ==> entries[j].signature != sig
    ensures r.None? ==> forall j :: 0 <= j < |entries| ==> entries[j].signature != sig
  {
    if entries == [] then None
    else if entries[0].signature == sig then Some(0)
    else match IndexOfSignature(entries[1..], sig)
      case None => None
      case Some(i) => Some(i + 1)
  }

  /** `multidispatch(fn)`: a table holding the base function only. */
  function New(fn: FunctionDef): (r: Dispatcher)
    ensures Valid(r) && r.wrapped == fn && r.entries == [fn]
  {
    Dispatcher(fn, [fn])
  }

  /** `register(fn)`: a dictionary store keyed by signature, which replaces an
      existing entry in place and otherwise appends. */
  function Register(d: Dispatcher, fn: FunctionDef): (r: Dispatcher)
    ensures r.wrapped == d.wrapped
    ensures fn in r.entries
    ensures forall k :: 0 <= k < |d.entries| && d.entries[k].signature == fn.signature &&
                        (forall j :: 0 <= j < k ==> d.entries[j].signature != fn.signature) ==>
              r.entries == d.entries[k := fn]
    ensures (forall i :: 0 <= i < |d.entries| ==> d.entries[i].signature != fn.signature) ==>
              r.entries == d.entries + [fn]
  {
    match IndexOfSignature(d.entries, fn.signature)
    case Some(i) =>
      var entries := d.entries[i := fn];
      assert entries[i] == fn;
      d.(entries := entries)
    case None => d.(entries := d.entries + [fn])
  }

  lemma RegisterPreservesValid(d: Dispatcher, fn: FunctionDef)
    requires Valid(d)
    ensures Valid(Register(d, fn))
  {
  }

  /** The `__code__` property: the code of the first registered function;
      an empty table fails its assertion. */
  function DunderCode(d: Dispatcher): (r: Result<Code, Exception>)
    ensures Valid(d) ==> r.Success?
    ensures r.Success? <==> d.entries != []
    ensures r.Success? ==> r.value == d.entries[0].code
  {
    if d.entries == [] then Failure(EmptyDispatcher) else Success(d.entries[0].code)
  }

  /** What `__reduce__` saves: the constructor argument `__wrapped__` and the
      list `__registered_functions__` of every registered function. */
  datatype PickledState = PickledState(wrapped: FunctionDef, registeredFunctions: seq<FunctionDef>)

  function Reduce(d: Dispatcher): (s: PickledState)
    ensures s.wrapped == d.wrapped && s.registeredFunctions == d.entries
  {
    PickledState(d.wrapped, d.entries)
  }

  /** Registering a list of functions one after the other. */
  function RegisterAll(d: Dispatcher, fns: seq<FunctionDef>): (r: Dispatcher)
    ensures r.wrapped == d.wrapped
    ensures |r.entries| >= |d.entries|
    ensures forall i :: 0 <= i < |d.entries| ==> r.entries[i].signature == d.entries[i].signature
    ensures fns != [] ==> fns[|fns| - 1] in r.entries
    decreases |fns|
  {
    if fns == [] then d else RegisterAll(Register(d, fns[0]), fns[1..])
  }

  /** Unpickling: `multidispatch(state["__wrapped__"])` followed by
      `__setstate__`, which calls `register` on each saved function in order. */
  method SetState(state: PickledState) returns (d: Dispatcher)
    ensures d == RegisterAll(New(state.wrapped), state.registeredFunctions)
    ensures d.wrapped == state.wrapped
  {
    d := New(state.wrapped);
    var fns := state.registeredFunctions;
    var i := 0;
    while i < |fns|
      invariant 0 <= i <= |fns|
      invariant d.wrapped == state.wrapped
      invariant RegisterAll(d, fns[i..]) == RegisterAll(New(state.wrapped), fns)
    {
      assert fns[i..][1..] == fns[i + 1..];
      d := Register(d, fns[i]);
      i := i + 1;
    }
  }

  /** Registering the rest of a valid table's entries on a prefix of it
      rebuilds the table. */
  lemma {:induction false} RegisterRestRebuilds(d: Dispatcher, k: nat)
    requires Valid(d) && 1 <= k <= |d.entries|
    ensures RegisterAll(Dispatcher(d.wrapped, d.entries[..k]), d.entries[k..]) == d
    decreases |d.entries| - k
  {
    if k == |d.entries| {
      assert d.entries[..k] == d.entries;
    } else {
      var pre := Dispatcher(d.wrapped, d.entries[..k]);
      var fn := d.entries[k];
      forall i | 0 <= i < |pre.entries|
        ensures pre.entries[i].signature != fn.signature
      {
      }
      assert Register(pre, fn) == Dispatcher(d.wrapped, d.entries[..k + 1]);
      assert d.entries[k..][1..] == d.entries[k + 1..];
      RegisterRestRebuilds(d, k + 1);
    }
  }

  /** Pickling round trip: unpickling what `__reduce__` saved yields the same
      table, with every variant in its original position. */
  lemma {:induction false} PickleRoundTrip(d: Dispatcher)
    requires Valid(d)
    ensures RegisterAll(New(Reduce(d).wrapped), Reduce(d).registeredFunctions) == d
  {
    var s := Reduce(d);
    var first := Register(New(d.wrapped), d.entries[0]);
    assert first == Dispatcher(d.wrapped, d.entries[..1]);
    assert d.entries[1..] == d.entries[..][1..];
    RegisterRestRebuilds(d, 1);
  }

  /** Unpickling keeps the table valid. */
  lemma {:induction false} RegisterAllPreservesValid(d: Dispatcher, fns: seq<FunctionDef>)
    requires Valid(d)
    ensures Valid(RegisterAll(d, fns))
    decreases |fns|
  {
    if fns != [] {
      RegisterPreservesValid(d, fns[0]);
      RegisterAllPreservesValid(Register(d, fns[0]), fns[1..]);
    }
  }
}
