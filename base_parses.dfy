/** The base parse machinery of pandera/api/base/parses.py: the metaclass's
    class-level registries (backends keyed by owning class and data type,
    built-in parse functions, custom parses), backend lookup along the
    method-resolution order, attribute-style resolution of registered names,
    and the equality and hash of parse objects. */
module BaseParses {
  import opened Wrappers
  import opened PyObjects
  import MultiDispatch

  /** The result a backend returns for one parse. */
  datatype ParseResult = ParseResult(parseOutput: Value, parsePassed: bool, parsedObject: Value)

  // ---------------------------------------------------------------------------
  // Backend lookup

  /** The registered backend of the first class in `classes` that has one for
      `owner`, scanning from the front. */
  function FirstRegistered(registry: map<(TypeId, TypeId), BackendId>, owner: TypeId, classes: seq<TypeId>): Option<BackendId>
    decreases |classes|
  {
    if classes == [] then None
    else if (owner, classes[0]) in registry then Some(registry[(owner, classes[0])])
    else FirstRegistered(registry, owner, classes[1..])
  }

  /** `get_backend` as a function of the registry: the first hit along the
      data type's MRO, or a "not found" error naming the type and the whole
      chain it searched. */
  function LookupBackend(registry: map<(TypeId, TypeId), BackendId>, owner: TypeId, dataType: TypeInfo): Result<BackendId, Exception>
  {
    match FirstRegistered(registry, owner, Mro(dataType))
    case Some(b) => Success(b)
    case None => Failure(BackendNotFound(dataType.id, Mro(dataType)))
  }

  lemma {:induction false} FirstRegisteredNoneIff(registry: map<(TypeId, TypeId), BackendId>, owner: TypeId, classes: seq<TypeId>)
    ensures FirstRegistered(registry, owner, classes).None? <==>
            forall k :: 0 <= k < |classes| ==> (owner, classes[k]) !in registry
    decreases |classes|
  {
    if classes != [] && (owner, classes[0]) !in registry {
      FirstRegisteredNoneIff(registry, owner, classes[1..]);
      assert forall k :: 1 <= k < |classes| ==> classes[k] == classes[1..][k - 1];
    }
  }

  lemma {:induction false} FirstRegisteredIsEarliest(registry: map<(TypeId, TypeId), BackendId>, owner: TypeId, classes: seq<TypeId>, k: nat)
    requires k < |classes| && (owner, classes[k]) in registry
    requires forall j :: 0 <= j < k ==> (owner, classes[j]) !in registry
    ensures FirstRegistered(registry, owner, classes) == Some(registry[(owner, classes[k])])
    decreases k
  {
    if k > 0 {
      assert (owner, classes[0]) !in registry;
      FirstRegisteredIsEarliest(registry, owner, classes[1..], k - 1);
    }
  }

  lemma {:induction false} FirstRegisteredIgnoresOtherOwners(
    registry: map<(TypeId, TypeId), BackendId>, owner: TypeId, other: TypeId, t: TypeId, b: BackendId, classes: seq<TypeId>)
    requires owner != other
    ensures FirstRegistered(registry[(other, t) := b], owner, classes) == FirstRegistered(registry, owner, classes)
    decreases |classes|
  {
    if classes != [] {
      FirstRegisteredIgnoresOtherOwners(registry, owner, other, t, b, classes[1..]);
    }
  }

  /** The backend returned is that of the earliest class of the MRO that has
      an entry for the owning class (ancestor fallback when the type itself
      has none). */
  lemma GetBackendFindsEarliest(registry: map<(TypeId, TypeId), BackendId>, owner: TypeId, dataType: TypeInfo, k: nat)
    requires k < |Mro(dataType)| && (owner, Mro(dataType)[k]) in registry
    requires forall j :: 0 <= j < k ==> (owner, Mro(dataType)[j]) !in registry
    ensures LookupBackend(registry, owner, dataType) == Success(registry[(owner, Mro(dataType)[k])])
  {
    FirstRegisteredIsEarliest(registry, owner, Mro(dataType), k);
  }

  /** Lookup fails exactly when no class of the MRO has an entry, and the
      error names the type and the full chain searched. */
  lemma GetBackendFailsIff(registry: map<(TypeId, TypeId), BackendId>, owner: TypeId, dataType: TypeInfo)
    ensures LookupBackend(registry, owner, dataType).Failure? <==>
            forall k :: 0 <= k < |Mro(dataType)| ==> (owner, Mro(dataType)[k]) !in registry
    ensures LookupBackend(registry, owner, dataType).Failure? ==>
            LookupBackend(registry, owner, dataType).error == BackendNotFound(dataType.id, Mro(dataType))
  {
    FirstRegisteredNoneIff(registry, owner, Mro(dataType));
  }

  /** Registries are scoped by owning class: a registration through one class
      never changes what a lookup through a different class returns. */
  lemma LookupScopedByOwner(
    registry: map<(TypeId, TypeId), BackendId>, owner: TypeId, other: TypeId, t: TypeId, b: BackendId, dataType: TypeInfo)
    requires owner != other
    ensures LookupBackend(registry[(other, t) := b], owner, dataType) == LookupBackend(registry, owner, dataType)
  {
    FirstRegisteredIgnoresOtherOwners(registry, owner, other, t, b, Mro(dataType));
  }

  /** A backend registered for the data object's own type is found first,
      whatever its ancestors have registered. */
  lemma RegisterThenLookup(registry: map<(TypeId, TypeId), BackendId>, owner: TypeId, dataType: TypeInfo, b: BackendId)
    ensures LookupBackend(registry[(owner, dataType.id) := b], owner, dataType) == Success(b)
  {
  }

  // ---------------------------------------------------------------------------
  // Keyword merging

  /** `{**init_kwargs, **parse_kwargs}`: every key of either map, the
      right-hand map winning on collisions. */
  function MergeKwargs(initKwargs: map<string, Value>, parseKwargs: map<string, Value>): (r: map<string, Value>)
    ensures r.Keys == initKwargs.Keys + parseKwargs.Keys
    ensures forall k :: k in parseKwargs ==> r[k] == parseKwargs[k]
    ensures forall k :: k in initKwargs && k !in parseKwargs ==> r[k] == initKwargs[k]
  {
    initKwargs + parseKwargs
  }

  // ---------------------------------------------------------------------------
  // The metaclass registries

  /** The built-in table as the values a merged attribute dictionary holds. */
  function BuiltinValues(builtins: map<string, Dispatcher>): (r: map<string, Value>)
    ensures r.Keys == builtins.Keys
    ensures forall n :: n in builtins ==> r[n] == Fn(Dispatch(builtins[n]))
  {
    map n | n in builtins :: Fn(Dispatch(builtins[n]))
  }

  /** What `in` is asked about: a parse instance (whose `name` is looked up)
      or any other object, expected to be an attribute name. */
  datatype ContainsItem = ParseItem(typ: TypeInfo, name: Value) | OtherItem(value: Value)

  /** The class-level state shared by every parse class through the metaclass. */
  class MetaParse {
    /** `BACKEND_REGISTRY`: (owning class, data type) to backend class. */
    var backendRegistry: map<(TypeId, TypeId), BackendId>
    /** The built-in parse function table, name to dispatch wrapper. */
    var parseFunctionRegistry: map<string, Dispatcher>
    /** `REGISTERED_CUSTOM_PARSES`, filled by the extension API. */
    var registeredCustomParses: map<string, Value>

    /** Every built-in entry is a valid dispatch table stored under the name
        of its base function. */
    ghost predicate Valid()
      reads this
    {
      forall n :: n in parseFunctionRegistry ==>
        MultiDispatch.Valid(parseFunctionRegistry[n]) && parseFunctionRegistry[n].wrapped.name == n
    }

    constructor ()
      ensures Valid()
      ensures backendRegistry == map[] && parseFunctionRegistry == map[] && registeredCustomParses == map[]
    {
      backendRegistry := map[];
      parseFunctionRegistry := map[];
      registeredCustomParses := map[];
    }

    /** `register_backend`: store the backend for (owner, data type),
        overwriting that exact pair only. */
    method RegisterBackend(owner: TypeId, dataType: TypeId, backend: BackendId)
      requires Valid()
      modifies this
      ensures Valid()
      ensures backendRegistry == old(backendRegistry)[(owner, dataType) := backend]
      ensures parseFunctionRegistry == old(parseFunctionRegistry)
      ensures registeredCustomParses == old(registeredCustomParses)
    {
      backendRegistry := backendRegistry[(owner, dataType) := backend];
    }

    /** `get_backend`: scan the data type's MRO, most specific first, and
        return the first registered entry for the owning class. */
    method GetBackend(owner: TypeId, dataType: TypeInfo) returns (r: Result<BackendId, Exception>)
      ensures r == LookupBackend(backendRegistry, owner, dataType)
    {
      var classes := Mro(dataType);
      var i := 0;
      while i < |classes|
        invariant 0 <= i <= |classes|
        invariant FirstRegistered(backendRegistry, owner, classes[i..]) == FirstRegistered(backendRegistry, owner, classes)
      {
        if (owner, classes[i]) in backendRegistry {
          return Success(backendRegistry[(owner, classes[i])]);
        }
        assert classes[i..][1..] == classes[i + 1..];
        i := i + 1;
      }
      return Failure(BackendNotFound(dataType.id, classes));
    }

    /** `register_builtin_parse_fn`: store `multidispatch(fn)` under fn's name,
        replacing an earlier entry, and hand `fn` back unchanged. */
    method RegisterBuiltinParseFn(fn: FunctionDef) returns (r: FunctionDef)
      requires Valid()
      modifies this
      ensures Valid()
      ensures r == fn
      ensures parseFunctionRegistry == old(parseFunctionRegistry)[fn.name := MultiDispatch.New(fn)]
      ensures backendRegistry == old(backendRegistry)
      ensures registeredCustomParses == old(registeredCustomParses)
    {
      parseFunctionRegistry := parseFunctionRegistry[fn.name := MultiDispatch.New(fn)];
      r := fn;
    }

    /** `get_builtin_parse_fn`: the stored wrapper, or a KeyError. */
    function GetBuiltinParseFn(name: string): (r: Result<Dispatcher, Exception>)
      reads this
      ensures r.Success? <==> name in parseFunctionRegistry
      ensures r.Success? ==> r.value == parseFunctionRegistry[name]
      ensures r.Failure? ==> r.error == MissingBuiltin(name)
    {
      if name in parseFunctionRegistry then Success(parseFunctionRegistry[name]) else Failure(MissingBuiltin(name))
    }

    /** `__getattr__`: look `name` up in the class dictionary merged with the
        built-in table and then the custom table; a missing or `None` result
        is an AttributeError. */
    function ResolveAttr(classDict: map<string, Value>, name: string): (r: Result<Value, Exception>)
      reads this
      ensures r.Failure? ==> r.error == UnregisteredAttribute(name)
      ensures r.Success? ==> r.value != PyNone
      ensures r.Success? <==>
                if name in registeredCustomParses then registeredCustomParses[name] != PyNone
                else name in parseFunctionRegistry || (name in classDict && classDict[name] != PyNone)
    {
      var merged := classDict + BuiltinValues(parseFunctionRegistry) + registeredCustomParses;
      var attr := if name in merged then merged[name] else PyNone;
      if attr == PyNone then Failure(UnregisteredAttribute(name)) else Success(attr)
    }

    /** `hasattr(cls, name)`: ordinary lookup in the class dictionary, then
        `__getattr__`, whose AttributeError means false. */
    predicate HasAttr(classDict: map<string, Value>, name: string)
      reads this
      ensures HasAttr(classDict, name) <==>
                || name in classDict
                || (if name in registeredCustomParses then registeredCustomParses[name] != PyNone
                    else name in parseFunctionRegistry)
    {
      name in classDict || ResolveAttr(classDict, name).Success?
    }

    /** `__contains__`: a parse instance of `cls` is looked up by its `name`,
        anything else is taken as the name itself; `hasattr` raises a
        TypeError when that is not a string. */
    function Contains(cls: TypeId, classDict: map<string, Value>, item: ContainsItem): (r: Result<bool, Exception>)
      reads this
      ensures r.Failure? ==> r.error == AttributeNameNotString
      ensures r.Success? <==>
                match item
                case ParseItem(t, n) => cls in Mro(t) && n.PyStr?
                case OtherItem(v) => v.PyStr?
    {
      match item
      case ParseItem(t, n) =>
        if cls in Mro(t) && n.PyStr? then Success(HasAttr(classDict, n.s))
        else Failure(AttributeNameNotString)
      case OtherItem(v) =>
        if v.PyStr? then Success(HasAttr(classDict, v.s)) else Failure(AttributeNameNotString)
    }
  }

  /** Attribute resolution precedence: custom over built-in over the class
      dictionary; whichever table holds the name decides, and a `None` there
      is an error even when a lower table holds a value. */
  lemma ResolveAttrPrecedence(m: MetaParse, classDict: map<string, Value>, name: string)
    ensures name in m.registeredCustomParses ==>
              m.ResolveAttr(classDict, name) ==
                (if m.registeredCustomParses[name] == PyNone then Failure(UnregisteredAttribute(name))
                 else Success(m.registeredCustomParses[name]))
    ensures name !in m.registeredCustomParses && name in m.parseFunctionRegistry ==>
              m.ResolveAttr(classDict, name) == Success(Fn(Dispatch(m.parseFunctionRegistry[name])))
    ensures name !in m.registeredCustomParses && name !in m.parseFunctionRegistry && name in classDict ==>
              m.ResolveAttr(classDict, name) ==
                (if classDict[name] == PyNone then Failure(UnregisteredAttribute(name)) else Success(classDict[name]))
    ensures name !in m.registeredCustomParses && name !in m.parseFunctionRegistry && name !in classDict ==>
              m.ResolveAttr(classDict, name) == Failure(UnregisteredAttribute(name))
  {
  }

  /** A registered parse name is "in" the class; a name no table holds is not. */
  lemma ContainsRegisteredNames(m: MetaParse, cls: TypeId, classDict: map<string, Value>, name: string)
    ensures name in m.parseFunctionRegistry && name !in m.registeredCustomParses ==>
              m.Contains(cls, classDict, OtherItem(PyStr(name))) == Success(true)
    ensures name in m.registeredCustomParses && m.registeredCustomParses[name] != PyNone ==>
              m.Contains(cls, classDict, OtherItem(PyStr(name))) == Success(true)
    ensures name in classDict ==>
              m.Contains(cls, classDict, OtherItem(PyStr(name))) == Success(true)
    ensures name !in classDict && name !in m.parseFunctionRegistry && name !in m.registeredCustomParses ==>
              m.Contains(cls, classDict, OtherItem(PyStr(name))) == Success(false)
    ensures name !in classDict && name in m.registeredCustomParses && m.registeredCustomParses[name] == PyNone ==>
              m.Contains(cls, classDict, OtherItem(PyStr(name))) == Success(false)
  {
  }

  /** A parse instance is "in" its class exactly when its name is. */
  lemma ContainsParseByName(m: MetaParse, cls: TypeId, classDict: map<string, Value>, t: TypeInfo, name: string)
    requires cls in Mro(t)
    ensures m.Contains(cls, classDict, ParseItem(t, PyStr(name))) == m.Contains(cls, classDict, OtherItem(PyStr(name)))
  {
  }

  // ---------------------------------------------------------------------------
  // Equality and hashing of parse objects

  /** An instance `__dict__`: `_parse_fn`, the optional `strategy` entry and
      every other attribute by name. */
  datatype InstanceDict = InstanceDict(parseFn: Callable, strategy: Option<Value>, others: map<string, Value>)

  /** The right-hand side of `==`: a parse object with its concrete type, or
      an object of an unrelated class. */
  datatype Operand = ParseOperand(typ: TypeInfo, dict: InstanceDict) | NonParse

  datatype EqOutcome = NotImplemented | Compared(equal: bool)

  /** `fn.__code__.co_code`: plain functions and dispatch wrappers have a
      code object, partials and other callables do not. */
  function CodeOf(fn: Callable): (r: Result<Code, Exception>)
    ensures r.Success? <==> fn.Func? || (fn.Dispatch? && fn.dispatcher.entries != [])
    ensures fn.Func? ==> r == Success(fn.def.code)
    ensures fn.Dispatch? && r.Success? ==> r.value == fn.dispatcher.entries[0].code
    ensures r.Failure? ==> r.error == if fn.Dispatch? then EmptyDispatcher else MissingAttribute("__code__")
  {
    match fn
    case Func(def) => Success(def.code)
    case Dispatch(d) => MultiDispatch.DunderCode(d)
    case Partial(_, _, _) => Failure(MissingAttribute("__code__"))
    case CallableObject(_, _) => Failure(MissingAttribute("__code__"))
  }

  /** `_get_parse_fn_code`: the code of the wrapped callable, unwrapping one
      level of `functools.partial` when the callable has no code itself. */
  function ParseFnCode(fn: Callable): (r: Result<Code, Exception>)
    ensures fn.Func? ==> r == Success(fn.def.code)
    ensures fn.Dispatch? ==> r == CodeOf(fn)
    ensures fn.Dispatch? && MultiDispatch.Valid(fn.dispatcher) ==> r == Success(fn.dispatcher.entries[0].code)
    ensures fn.Partial? ==> r == CodeOf(fn.func)
    ensures fn.CallableObject? ==> r == Failure(MissingAttribute("func"))
  {
    match CodeOf(fn)
    case Success(c) => Success(c)
    case Failure(e) =>
      if e != MissingAttribute("__code__") then Failure(e)
      else match fn
        case Partial(inner, _, _) => CodeOf(inner)
        case _ => Failure(MissingAttribute("func"))
  }

  /** `getattr(strategy, attr)` for the attributes a `functools.partial` has;
      `None` stands for the AttributeError of anything else. */
  function StrategyAttr(strategy: Option<Value>, attr: string): Option<Value>
  {
    match strategy
    case Some(Fn(Partial(func, args, keywords))) =>
      if attr == "func" then Some(Fn(func))
      else if attr == "args" then Some(PyTuple(args))
      else if attr == "keywords" then Some(PyDict(keywords))
      else None
    case _ => None
  }

  /** `all(...)` over the attribute names, short-circuiting on the first
      difference; an AttributeError anywhere makes the whole comparison true. */
  function StrategyAttrsEqual(s1: Option<Value>, s2: Option<Value>, attrs: seq<string>): bool
    decreases |attrs|
  {
    if attrs == [] then true
    else match StrategyAttr(s1, attrs[0])
      case None => true
      case Some(a) =>
        match StrategyAttr(s2, attrs[0])
        case None => true
        case Some(b) => a == b && StrategyAttrsEqual(s1, s2, attrs[1..])
  }

  predicate StrategiesEqual(s1: Option<Value>, s2: Option<Value>)
  {
    StrategyAttrsEqual(s1, s2, ["func", "args", "keywords"])
  }

  predicate IsPartialStrategy(s: Option<Value>)
  {
    s.Some? && s.value.Fn? && s.value.callable.Partial?
  }

  /** Strategies compare equal unless both are partials that differ in
      function, positional arguments or keywords; a missing strategy on
      either side compares equal. */
  lemma StrategiesEqualIff(s1: Option<Value>, s2: Option<Value>)
    ensures StrategiesEqual(s1, s2) <==> (IsPartialStrategy(s1) && IsPartialStrategy(s2) ==> s1 == s2)
  {
  }

  /** The attributes compared by value: everything but `_parse_fn` and `strategy`. */
  function OtherAttributes(d: InstanceDict): (r: map<string, Value>)
    ensures r.Keys == d.others.Keys - {"_parse_fn", "strategy"}
    ensures forall k :: k in r ==> r[k] == d.others[k]
  {
    d.others - {"_parse_fn", "strategy"}
  }

  /** `__eq__`: NotImplemented for a non-instance of `type(self)`; otherwise
      code, strategy and every other attribute must agree. Errors raised while
      reading either code propagate, self's first. */
  function Eq(selfType: TypeId, self: InstanceDict, other: Operand): (r: Result<EqOutcome, Exception>)
    ensures r == Success(NotImplemented) <==> !(other.ParseOperand? && selfType in Mro(other.typ))
    ensures r.Failure? ==>
              if ParseFnCode(self.parseFn).Failure? then r.error == ParseFnCode(self.parseFn).error
              else ParseFnCode(other.dict.parseFn).Failure? && r.error == ParseFnCode(other.dict.parseFn).error
    ensures r.Failure? <==>
              other.ParseOperand? && selfType in Mro(other.typ) &&
              (ParseFnCode(self.parseFn).Failure? || ParseFnCode(other.dict.parseFn).Failure?)
    ensures r == Success(Compared(true)) <==>
              && other.ParseOperand? && selfType in Mro(other.typ)
              && ParseFnCode(self.parseFn).Success?
              && ParseFnCode(self.parseFn) == ParseFnCode(other.dict.parseFn)
              && StrategiesEqual(self.strategy, other.dict.strategy)
              && OtherAttributes(self) == OtherAttributes(other.dict)
  {
    if !(other.ParseOperand? && selfType in Mro(other.typ)) then Success(NotImplemented)
    else match ParseFnCode(self.parseFn)
      case Failure(e) => Failure(e)
      case Success(c1) =>
        match ParseFnCode(other.dict.parseFn)
        case Failure(e) => Failure(e)
        case Success(c2) =>
          Success(Compared(c1 == c2 && StrategiesEqual(self.strategy, other.dict.strategy) && OtherAttributes(self) == OtherAttributes(other.dict)))
  }

  /** `__hash__`: the hash of the wrapped callable's code and nothing else,
      for any hash function on code bytes. */
  function Hash(d: InstanceDict, hash: Code -> int): (r: Result<int, Exception>)
    ensures r.Success? <==> ParseFnCode(d.parseFn).Success?
    ensures r.Success? ==> r.value == hash(ParseFnCode(d.parseFn).value)
    ensures r.Failure? ==> r.error == ParseFnCode(d.parseFn).error
  {
    match ParseFnCode(d.parseFn)
    case Success(c) => Success(hash(c))
    case Failure(e) => Failure(e)
  }

  /** Equal parse objects hash equal. */
  lemma EqualImpliesEqualHash(selfType: TypeId, self: InstanceDict, other: Operand, hash: Code -> int)
    requires Eq(selfType, self, other) == Success(Compared(true))
    ensures other.ParseOperand?
    ensures Hash(self, hash).Success? && Hash(self, hash) == Hash(other.dict, hash)
  {
  }

  /** Reflexivity, whenever the code can be read. */
  lemma EqReflexive(t: TypeInfo, self: InstanceDict)
    requires ParseFnCode(self.parseFn).Success?
    ensures Eq(t.id, self, ParseOperand(t, self)) == Success(Compared(true))
  {
  }

  /** Symmetry between two instances of one class whose codes can be read. */
  lemma EqSymmetric(t: TypeInfo, u: TypeInfo, a: InstanceDict, b: InstanceDict)
    requires t.id in Mro(u) && u.id in Mro(t)
    requires ParseFnCode(a.parseFn).Success? && ParseFnCode(b.parseFn).Success?
    ensures Eq(t.id, a, ParseOperand(u, b)).Success? && Eq(t.id, a, ParseOperand(u, b)) == Eq(u.id, b, ParseOperand(t, a))
  {
  }

  /** Two instances with the same callable that differ in any other
      attribute are unequal but share a hash. */
  lemma MetadataOnlyDifferenceCollides(t: TypeInfo, a: InstanceDict, b: InstanceDict, hash: Code -> int)
    requires a.parseFn == b.parseFn && ParseFnCode(a.parseFn).Success?
    requires OtherAttributes(a) != OtherAttributes(b)
    ensures Eq(t.id, a, ParseOperand(t, b)) == Success(Compared(false))
    ensures Hash(a, hash).Success? && Hash(a, hash) == Hash(b, hash)
  {
  }

  /** Only the code is compared: partials of one function with different
      bound arguments have the same code, hence the same hash. */
  lemma PartialArgumentsIgnored(f: FunctionDef, args1: seq<Value>, kw1: map<string, Value>, args2: seq<Value>, kw2: map<string, Value>)
    ensures ParseFnCode(Partial(Func(f), args1, kw1)) == ParseFnCode(Func(f)) == Success(f.code)
    ensures ParseFnCode(Partial(Func(f), args1, kw1)) == ParseFnCode(Partial(Func(f), args2, kw2))
  {
  }

  // ---------------------------------------------------------------------------
  // The registry attribute name as written

  /** Where an attribute read on a parse class ends: found by ordinary lookup
      or produced by the metaclass `__getattr__`. */
  datatype AttrRoute = Declared | ThroughGetattr

  /** Reading attribute `name` of a parse class with `depth` Python frames
      left. `declared` is every name ordinary lookup finds on the class: its
      own and inherited class attributes (the classmethods of `BaseParse`
      among them) and the metaclass attributes. Any other name goes to
      `__getattr__`, whose body reads `PARSE_FUNCTION_REGISTRY` and then
      `REGISTERED_CUSTOM_PARSES` on the same class. */
  function ClassAttributeRead(declared: set<string>, name: string, depth: nat): (r: Result<AttrRoute, Exception>)
    ensures name in declared ==> r == Success(Declared)
    ensures name !in declared && r.Success? ==> r == Success(ThroughGetattr)
    ensures r.Failure? ==> r.error == RecursionLimit
    ensures name !in declared && depth == 0 ==> r.Failure?
    ensures "PARSE_FUNCTION_REGISTRY" in declared && "REGISTERED_CUSTOM_PARSES" in declared && depth >= 1 ==> r.Success?
    decreases depth
  {
    if name in declared then Success(Declared)
    else if depth == 0 then Failure(RecursionLimit)
    else match ClassAttributeRead(declared, "PARSE_FUNCTION_REGISTRY", depth - 1)
      case Failure(e) => Failure(e)
      case Success(_) =>
        match ClassAttributeRead(declared, "REGISTERED_CUSTOM_PARSES", depth - 1)
        case Failure(e) => Failure(e)
        case Success(_) => Success(ThroughGetattr)
  }

  /** As written, no class declares `PARSE_FUNCTION_REGISTRY` (the metaclass
      declares `Parse_FUNCTION_REGISTRY`), so reading it recurses through
      `__getattr__` until the recursion limit, however deep the stack. This is
      the read in the bodies of `register_builtin_parse_fn`,
      `get_builtin_parse_fn` and `__dir__`. */
  lemma {:induction false} AsWrittenRegistryReadRecurses(declared: set<string>, depth: nat)
    requires "PARSE_FUNCTION_REGISTRY" !in declared
    ensures ClassAttributeRead(declared, "PARSE_FUNCTION_REGISTRY", depth) == Failure(RecursionLimit)
  {
    if depth > 0 {
      AsWrittenRegistryReadRecurses(declared, depth - 1);
    }
  }

  /** Hence, as written, every read that ordinary lookup does not find (a
      registered parse name, `in` on a name outside the class dictionary)
      reaches `__getattr__` and raises RecursionError. */
  lemma AsWrittenGetattrRecurses(declared: set<string>, name: string, depth: nat)
    requires "PARSE_FUNCTION_REGISTRY" !in declared && name !in declared
    ensures ClassAttributeRead(declared, name, depth) == Failure(RecursionLimit)
  {
    if depth > 0 {
      AsWrittenRegistryReadRecurses(declared, depth - 1);
    }
  }

  /** With the intended spelling both tables are found by ordinary lookup,
      and `__getattr__` reaches its dictionary merge in one frame. */
  lemma IntendedRegistryReadResolves(declared: set<string>, name: string, depth: nat)
    requires "PARSE_FUNCTION_REGISTRY" in declared && "REGISTERED_CUSTOM_PARSES" in declared
    requires name !in declared && depth >= 1
    ensures ClassAttributeRead(declared, "PARSE_FUNCTION_REGISTRY", depth) == Success(Declared)
    ensures ClassAttributeRead(declared, name, depth) == Success(ThroughGetattr)
  {
  }
}
