/** The concrete `Parse` class of pandera/api/parses.py: construction (field
    defaults and name derivation), invocation through the backend registered
    for the data object's type, and `from_builtin_parse_name`, which builds a
    `Parse` from a built-in function and merged keywords. */
module Parses {
  import opened Wrappers
  import opened PyObjects
  import MultiDispatch
  import opened BaseParses

  /** The arguments of `Parse.__init__` after binding. */
  datatype InitArgs = InitArgs(
    parseFn: Callable,
    elementWise: Value,
    name: Value,
    title: Value,
    description: Value,
    parseKwargs: map<string, Value>)

  /** `getattr(fn, "__name__", fn.__class__.__name__)`. */
  function DerivedName(fn: Callable): string
  {
    match fn
    case Func(def) => def.name
    case Dispatch(d) => d.wrapped.name
    case Partial(_, _, _) => "partial"
    case CallableObject(className, dunderName) =>
      match dunderName
      case Some(n) => n
      case None => className
  }

  /** The stored name: an explicit truthy name, else the callable's. */
  function StoredName(name: Value, fn: Callable): Value
  {
    if Truthy(name) then name else PyStr(DerivedName(fn))
  }

  /** The instance `__dict__` of a parse with these attribute values. */
  function ParseDict(parseFn: Callable, strategy: Option<Value>, name: Value, parseKwargs: map<string, Value>,
                     elementWise: Value, title: Value, description: Value): InstanceDict
  {
    InstanceDict(
      parseFn,
      strategy,
      map[
        "name" := name,
        "_parse_kwargs" := PyDict(parseKwargs),
        "element_wise" := elementWise,
        "title" := title,
        "description" := description])
  }

  /** The instance `__dict__` that `__init__` leaves behind (no strategy). */
  function InitDict(a: InitArgs): InstanceDict
  {
    ParseDict(a.parseFn, None, StoredName(a.name, a.parseFn), a.parseKwargs, a.elementWise, a.title, a.description)
  }

  /** The keyword parameters of `__init__` other than `parse_fn`. */
  const NAMED_PARAMETERS: set<string> := {"element_wise", "name", "title", "description"}

  function KeywordOr(kws: map<string, Value>, key: string, default: Value): Value
  {
    if key in kws then kws[key] else default
  }

  /** Binding `Parse(fn, **kws)`: the named keywords fill their parameters
      (with their defaults otherwise), the rest become `parse_kwargs`; a
      keyword naming a positional parameter is a TypeError. */
  function BindInitArgs(fn: Callable, kws: map<string, Value>): (r: Result<InitArgs, Exception>)
    ensures r.Failure? <==> "self" in kws || "parse_fn" in kws
    ensures r.Failure? ==> r.error.MultipleValues?
    ensures r.Success? ==> r.value.parseFn == fn
    ensures r.Success? ==> r.value.parseKwargs.Keys == kws.Keys - NAMED_PARAMETERS
    ensures r.Success? ==> forall k :: k in r.value.parseKwargs ==> r.value.parseKwargs[k] == kws[k]
    ensures r.Success? ==> (
              && ("element_wise" in kws ==> r.value.elementWise == kws["element_wise"])
              && ("name" in kws ==> r.value.name == kws["name"])
              && ("title" in kws ==> r.value.title == kws["title"])
              && ("description" in kws ==> r.value.description == kws["description"]))
    ensures r.Success? ==> (
              && ("element_wise" !in kws ==> r.value.elementWise == PyBool(false))
              && ("name" !in kws ==> r.value.name == PyNone)
              && ("title" !in kws ==> r.value.title == PyNone)
              && ("description" !in kws ==> r.value.description == PyNone))
  {
    if "self" in kws then Failure(MultipleValues("self"))
    else if "parse_fn" in kws then Failure(MultipleValues("parse_fn"))
    else Success(InitArgs(
      fn,
      KeywordOr(kws, "element_wise", PyBool(false)),
      KeywordOr(kws, "name", PyNone),
      KeywordOr(kws, "title", PyNone),
      KeywordOr(kws, "description", PyNone),
      kws - NAMED_PARAMETERS))
  }

  /** The parameters of `from_builtin_parse_name` that `**parse_kwargs`
      cannot also supply. */
  const FROM_BUILTIN_PARAMETERS: set<string> := {"cls", "name", "init_kwargs"}

  /** What `from_builtin_parse_name` passes to `cls(...)`, or the error it
      raises: a keyword clashing with its own parameters, an unknown built-in
      name, or a keyword clashing with a positional parameter of `__init__`. */
  function FromBuiltinArgs(m: MetaParse, name: string, initKwargs: map<string, Value>, parseKwargs: map<string, Value>)
    : (r: Result<InitArgs, Exception>)
    reads m
    ensures r.Success? ==> name in m.parseFunctionRegistry && r.value.parseFn == Dispatch(m.parseFunctionRegistry[name])
    ensures r.Success? ==> parseKwargs.Keys !! FROM_BUILTIN_PARAMETERS
    ensures r.Failure? ==> r.error.MultipleValues? || r.error == MissingBuiltin(name)
    ensures r.Failure? && r.error.MultipleValues? ==>
              r.error.param in FROM_BUILTIN_PARAMETERS + {"self", "parse_fn"}
  {
    if "cls" in parseKwargs then Failure(MultipleValues("cls"))
    else if "name" in parseKwargs then Failure(MultipleValues("name"))
    else if "init_kwargs" in parseKwargs then Failure(MultipleValues("init_kwargs"))
    else
      var kws := MergeKwargs(initKwargs, parseKwargs);
      match m.GetBuiltinParseFn(name)
      case Failure(e) => Failure(e)
      case Success(d) => BindInitArgs(Dispatch(d), kws)
  }

  /** How a backend runs: constructed from the parse, then called with the
      data object and the optional column. */
  type BackendRun = (BackendId, InstanceDict, DataObject, Option<string>) -> ParseResult

  class Parse {
    /** `type(self)`. */
    const typ: TypeInfo
    var parseFn: Callable
    var parseKwargs: map<string, Value>
    var elementWise: Value
    var name: Value
    var title: Value
    var description: Value
    /** The `strategy` entry, set only by code outside this model. */
    var strategy: Option<Value>

    /** The instance `__dict__` that equality and hashing inspect. */
    function Dict(): InstanceDict
      reads this
    {
      ParseDict(parseFn, strategy, name, parseKwargs, elementWise, title, description)
    }

    /** `Parse.__init__`: store the callable, the extra keywords, the flag
        and the metadata as passed, deriving the name when none is given. */
    constructor (typ: TypeInfo, parseFn: Callable, elementWise: Value, name: Value, title: Value, description: Value,
                 parseKwargs: map<string, Value>)
      ensures this.typ == typ
      ensures this.parseFn == parseFn && this.parseKwargs == parseKwargs && this.elementWise == elementWise
      ensures this.title == title && this.description == description && strategy == None
      ensures Truthy(name) ==> this.name == name
      ensures !Truthy(name) ==> this.name == PyStr(DerivedName(parseFn))
      ensures Dict() == InitDict(InitArgs(parseFn, elementWise, name, title, description, parseKwargs))
    {
      this.typ := typ;
      this.parseFn := parseFn;
      this.parseKwargs := parseKwargs;
      this.elementWise := elementWise;
      this.name := StoredName(name, parseFn);
      this.title := title;
      this.description := description;
      this.strategy := None;
    }

    /** `__call__`: look up the backend for the data object's type through
        this parse's class, run it, and return its result unchanged. */
    method Call(m: MetaParse, obj: DataObject, column: Option<string>, run: BackendRun) returns (r: Result<ParseResult, Exception>)
      ensures r.Failure? <==> LookupBackend(m.backendRegistry, typ.id, obj.typ).Failure?
      ensures r.Failure? ==> r.error == BackendNotFound(obj.typ.id, Mro(obj.typ))
      ensures r.Success? ==> r.value == run(LookupBackend(m.backendRegistry, typ.id, obj.typ).value, Dict(), obj, column)
    {
      GetBackendFailsIff(m.backendRegistry, typ.id, obj.typ);
      var backend := m.GetBackend(typ.id, obj.typ);
      match backend
      case Failure(e) =>
        r := Failure(e);
      case Success(b) =>
        r := Success(run(b, Dict(), obj, column));
    }
  }

  /** `from_builtin_parse_name`: a new parse of class `cls` around the named
      built-in function, configured by `init_kwargs` overridden by
      `parse_kwargs`. */
  method FromBuiltinParseName(m: MetaParse, cls: TypeInfo, name: string, initKwargs: map<string, Value>,
                              parseKwargs: map<string, Value>) returns (r: Result<Parse, Exception>)
    ensures r.Success? <==> FromBuiltinArgs(m, name, initKwargs, parseKwargs).Success?
    ensures r.Failure? ==> r.error == FromBuiltinArgs(m, name, initKwargs, parseKwargs).error
    ensures r.Success? ==> fresh(r.value) && r.value.typ == cls
    ensures r.Success? ==> r.value.Dict() == InitDict(FromBuiltinArgs(m, name, initKwargs, parseKwargs).value)
  {
    var bound := FromBuiltinArgs(m, name, initKwargs, parseKwargs);
    if bound.Failure? {
      return Failure(bound.error);
    }
    var a := bound.value;
    var p := new Parse(cls, a.parseFn, a.elementWise, a.name, a.title, a.description, a.parseKwargs);
    return Success(p);
  }

  // ---------------------------------------------------------------------------
  // Properties of construction

  /** A non-empty explicit name is stored unchanged. */
  lemma ExplicitNameKept(a: InitArgs, s: string)
    requires a.name == PyStr(s) && s != ""
    ensures InitDict(a).others["name"] == PyStr(s)
  {
  }

  /** Without a name (None or empty) the callable's `__name__` is used, and
      for a callable without one, its class name. */
  lemma MissingNameDerived(a: InitArgs)
    requires a.name == PyNone || a.name == PyStr("")
    ensures InitDict(a).others["name"] == PyStr(DerivedName(a.parseFn))
    ensures a.parseFn.Func? ==> InitDict(a).others["name"] == PyStr(a.parseFn.def.name)
    ensures a.parseFn.Dispatch? ==> InitDict(a).others["name"] == PyStr(a.parseFn.dispatcher.wrapped.name)
    ensures a.parseFn.Partial? ==> InitDict(a).others["name"] == PyStr("partial")
    ensures a.parseFn.CallableObject? && a.parseFn.dunderName.None? ==>
              InitDict(a).others["name"] == PyStr(a.parseFn.className)
  {
  }

  /** Everything but the name is stored verbatim, and no strategy is set. */
  lemma InitStoresArguments(a: InitArgs)
    ensures InitDict(a).parseFn == a.parseFn && InitDict(a).strategy == None
    ensures InitDict(a).others.Keys == {"name", "_parse_kwargs", "element_wise", "title", "description"}
    ensures InitDict(a).others["_parse_kwargs"] == PyDict(a.parseKwargs)
    ensures InitDict(a).others["element_wise"] == a.elementWise
    ensures InitDict(a).others["title"] == a.title
    ensures InitDict(a).others["description"] == a.description
  {
  }

  /** Two parses of one class built by `__init__` compare equal exactly when
      their callables have the same code and every stored argument agrees,
      the stored name included: an explicit name equal to the derived one
      matches an omitted name. Equal parses hash equal. */
  lemma SameArgumentsEqual(t: TypeInfo, a: InitArgs, b: InitArgs, hash: Code -> int)
    requires ParseFnCode(a.parseFn).Success? && ParseFnCode(b.parseFn).Success?
    ensures Eq(t.id, InitDict(a), ParseOperand(t, InitDict(b))) == Success(Compared(
              && ParseFnCode(a.parseFn) == ParseFnCode(b.parseFn)
              && StoredName(a.name, a.parseFn) == StoredName(b.name, b.parseFn)
              && a.parseKwargs == b.parseKwargs
              && a.elementWise == b.elementWise
              && a.title == b.title
              && a.description == b.description))
    ensures ParseFnCode(a.parseFn) == ParseFnCode(b.parseFn) ==> Hash(InitDict(a), hash) == Hash(InitDict(b), hash)
  {
    var da, db := InitDict(a), InitDict(b);
    if OtherAttributes(da) == OtherAttributes(db) {
      assert da.others["name"] == OtherAttributes(da)["name"] == OtherAttributes(db)["name"] == db.others["name"];
      assert da.others["_parse_kwargs"] == OtherAttributes(da)["_parse_kwargs"];
      assert db.others["_parse_kwargs"] == OtherAttributes(db)["_parse_kwargs"];
      assert da.others["element_wise"] == OtherAttributes(da)["element_wise"];
      assert db.others["element_wise"] == OtherAttributes(db)["element_wise"];
      assert da.others["title"] == OtherAttributes(da)["title"];
      assert db.others["title"] == OtherAttributes(db)["title"];
      assert da.others["description"] == OtherAttributes(da)["description"];
      assert db.others["description"] == OtherAttributes(db)["description"];
    }
  }

  /** Two parses that differ only in title or description are unequal but
      share a hash. */
  lemma MetadataOnlyParsesCollide(t: TypeInfo, a: InitArgs, title: Value, description: Value, hash: Code -> int)
    requires ParseFnCode(a.parseFn).Success?
    requires title != a.title || description != a.description
    ensures Eq(t.id, InitDict(a), ParseOperand(t, InitDict(a.(title := title, description := description)))) == Success(Compared(false))
    ensures Hash(InitDict(a), hash) == Hash(InitDict(a.(title := title, description := description)), hash)
  {
    var b := a.(title := title, description := description);
    if title != a.title {
      assert InitDict(a).others["title"] != InitDict(b).others["title"];
    } else {
      assert InitDict(a).others["description"] != InitDict(b).others["description"];
    }
    MetadataOnlyDifferenceCollides(t, InitDict(a), InitDict(b), hash);
  }

  /** `from_builtin_parse_name` keeps every keyword of either map, the
      parse keywords winning over the init keywords. */
  lemma FromBuiltinMergesKeywords(m: MetaParse, name: string, initKwargs: map<string, Value>, parseKwargs: map<string, Value>, k: string)
    requires FromBuiltinArgs(m, name, initKwargs, parseKwargs).Success?
    requires k in initKwargs || k in parseKwargs
    ensures var a := FromBuiltinArgs(m, name, initKwargs, parseKwargs).value;
            var v := if k in parseKwargs then parseKwargs[k] else initKwargs[k];
            (k !in NAMED_PARAMETERS ==> k in a.parseKwargs && a.parseKwargs[k] == v)
            && (k == "element_wise" ==> a.elementWise == v)
            && (k == "name" ==> a.name == v)
            && (k == "title" ==> a.title == v)
            && (k == "description" ==> a.description == v)
  {
  }

  /** The failure cases of `from_builtin_parse_name`, in the order Python
      meets them. */
  lemma FromBuiltinErrors(m: MetaParse, name: string, initKwargs: map<string, Value>, parseKwargs: map<string, Value>)
    ensures "name" in parseKwargs && "cls" !in parseKwargs ==>
              FromBuiltinArgs(m, name, initKwargs, parseKwargs) == Failure(MultipleValues("name"))
    ensures parseKwargs.Keys !! FROM_BUILTIN_PARAMETERS ==>
              (name !in m.parseFunctionRegistry <==> FromBuiltinArgs(m, name, initKwargs, parseKwargs) == Failure(MissingBuiltin(name)))
    ensures parseKwargs.Keys !! FROM_BUILTIN_PARAMETERS &&
            name in m.parseFunctionRegistry ==>
              (FromBuiltinArgs(m, name, initKwargs, parseKwargs).Failure? <==>
                 "self" in initKwargs + parseKwargs || "parse_fn" in initKwargs + parseKwargs)
  {
  }

  /** A parse built from a registered built-in hashes by the code of that
      built-in's base function. */
  lemma FromBuiltinHashesByBaseCode(m: MetaParse, name: string, initKwargs: map<string, Value>, parseKwargs: map<string, Value>,
                                    hash: Code -> int)
    requires m.Valid()
    requires FromBuiltinArgs(m, name, initKwargs, parseKwargs).Success?
    ensures name in m.parseFunctionRegistry
    ensures Hash(InitDict(FromBuiltinArgs(m, name, initKwargs, parseKwargs).value), hash)
              == Success(hash(m.parseFunctionRegistry[name].entries[0].code))
  {
  }
}
