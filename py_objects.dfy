/** The Python objects the parse core handles, made explicit: type identities
    with their method-resolution order, the values stored in dictionaries and
    instance attributes, the callables a parse can wrap, and the exceptions the
    core raises. */
module PyObjects {
  import opened Wrappers

  /** Abstract identity of a Python class (a parse class or a data-object type). */
  type TypeId = nat

  /** Abstract identity of a backend class. */
  type BackendId = nat

  /** The bytes of a compiled function body (`__code__.co_code`). */
  type Code = seq<bv8>

  /** The parameter annotations a multiple-dispatch table keys a function by. */
  type Signature = seq<TypeId>

  /** A class and the rest of its linearised MRO (every ancestor, `object`
      included), as `inspect.getmro` lists them after the class itself. */
  datatype TypeInfo = TypeInfo(id: TypeId, ancestors: seq<TypeId>)

  /** The method-resolution order of a type, most specific first. */
  function Mro(t: TypeInfo): (r: seq<TypeId>)
    ensures |r| == |t.ancestors| + 1 && r[0] == t.id
  {
    [t.id] + t.ancestors
  }

  /** A plain Python function: its compiled code, `__name__` and dispatch signature. */
  datatype FunctionDef = FunctionDef(code: Code, name: string, signature: Signature)

  /** A `multidispatch` object: the wrapped base function (`__wrapped__`) and the
      registered functions in dictionary order (one per signature). */
  datatype Dispatcher = Dispatcher(wrapped: FunctionDef, entries: seq<FunctionDef>)

  /** A value stored in a Python dictionary or instance attribute. */
  datatype Value =
    | PyNone
    | PyBool(b: bool)
    | PyInt(i: int)
    | PyStr(s: string)
    | PyTuple(items: seq<Value>)
    | PyDict(entries: map<string, Value>)
    | Fn(callable: Callable)
    | Opaque(id: nat)

  /** The callables a parse can wrap. */
  datatype Callable =
    | Func(def: FunctionDef)
    | Dispatch(dispatcher: Dispatcher)
    | Partial(func: Callable, args: seq<Value>, keywords: map<string, Value>)
    | CallableObject(className: string, dunderName: Option<string>)

  /** Python truthiness, as used by `name or ...`. */
  predicate Truthy(v: Value)
  {
    match v
    case PyNone => false
    case PyBool(b) => b
    case PyInt(i) => i != 0
    case PyStr(s) => s != ""
    case PyTuple(items) => items != []
    case PyDict(entries) => entries != map[]
    case Fn(_) => true
    case Opaque(_) => true
  }

  /** The exceptions the core raises, one constructor per raise site. */
  datatype Exception =
    | BackendNotFound(dataType: TypeId, searched: seq<TypeId>)  // KeyError in get_backend
    | MissingBuiltin(name: string)                              // KeyError in get_builtin_parse_fn
    | UnregisteredAttribute(name: string)                       // AttributeError in __getattr__
    | MissingAttribute(attr: string)                            // AttributeError on __code__ / func
    | EmptyDispatcher                                           // AssertionError in multidispatch.__code__
    | MultipleValues(param: string)                             // TypeError when binding keywords
    | AttributeNameNotString                                    // TypeError from hasattr
    | RecursionLimit                                            // RecursionError

  /** A data object handed to a parse: its runtime type and an opaque payload. */
  datatype DataObject = DataObject(typ: TypeInfo, payload: Value)
}
