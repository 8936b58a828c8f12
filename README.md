# Parse registry and dispatch core of pandera, in Dafny

This project models the "parse" plug-in core of pandera
(`pandera/api/base/parses.py` and `pandera/api/parses.py`) and proves its
contracts with Dafny.

- **Backend registry.** The metaclass holds one table, keyed by
  (owning parse class, data type), that maps to a backend class.
  `register_backend` overwrites one entry. `get_backend` walks the data
  object's method-resolution order (MRO), most specific type first. It
  returns the first entry registered for the owning class, or raises a
  "backend not found" error that names the type and the whole chain it
  searched.
- **Name registries.** There is a built-in table (name to `multidispatch`
  wrapper) and a custom table (name to callable). Attribute-style access on a
  parse class merges the class dictionary, the built-in table and the custom
  table, with later tables winning. `in` tests the same lookup.
  `from_builtin_parse_name` builds a parse from a built-in function. Its
  keywords are `init_kwargs` overridden by `parse_kwargs`.
- **Parse values.** `Parse.__init__` stores the callable, the extra keywords,
  `element_wise`, `title` and `description` as given. It takes the name from
  the callable when none is given. `__call__` hands the work to the backend
  found for the data object's type. `__eq__` compares the compiled code, the
  optional strategy and every other attribute. `__hash__` uses the code only.
- **`multidispatch` pickling.** `__reduce__` saves the registered functions
  as a list. `__setstate__` re-registers them, in order, on a table rebuilt
  from the base function.

Python reflection becomes explicit data:
- A type is a `TypeInfo`: its id and its ancestors, the rest of its linearised MRO (`object` included). Its MRO is the type followed by its ancestors.
- A callable is a `Callable`: a plain function with abstract code bytes and a name, a `multidispatch` table, a one-level `functools.partial`, or some other callable object.
- An exception is an `Exception` value, one constructor per raise site, returned in a `Result`.

Modules: `Wrappers` (Option, Result), `PyObjects` (the Python values, callables,
types and exceptions), `MultiDispatch` (the `multidispatch` subclass),
`BaseParses` (`MetaParse`, `BaseParse`, `ParseResult`) and `Parses` (`Parse`).

Two behaviours of the code that a reader may not expect:
- A strategy compares equal whenever either side has none (or has one that is not a `functools.partial`), not only when both lack one. The `except AttributeError` around the comparison makes it so, and the model follows the code.
- As written, the built-in table is declared under one spelling and read under another, so attribute access and `in` on any name that ordinary lookup does not find (every registered parse name among them), and every call of `register_builtin_parse_fn` or `get_builtin_parse_fn`, raise RecursionError. Names that ordinary lookup finds, such as `register_backend` and `get_backend`, are unaffected. The registry members (`MetaParse.ResolveAttr`, `HasAttr`, `Contains`, `RegisterBuiltinParseFn`, `GetBuiltinParseFn`, and `FromBuiltinParseName` in `Parses`) model the intended single, correctly spelled table and never raise it. Only `ClassAttributeRead` models the as-written RecursionError; see the Findings row.

## Model

| member | source | states |
|---|---|---|
| `BaseParses.MetaParse.constructor` | pandera/api/base/parses.py:73-80 | All three class-level tables start empty, and the built-in table invariant holds |
| `BaseParses.MetaParse.RegisterBackend` | pandera/api/base/parses.py:155-158 | The entry for (owner, type) becomes the backend. Every other backend entry, the built-in table and the custom table are unchanged |
| `BaseParses.MetaParse.GetBackend` | pandera/api/base/parses.py:160-172 | The loop over the MRO, with its early return, yields exactly the registry lookup `LookupBackend` (first hit, or "not found" with the type and the full chain) |
| `BaseParses.GetBackendFindsEarliest` | pandera/api/base/parses.py:163-169 | If the k-th class of the MRO is the first with an entry for the owner, the lookup returns that entry. A subtype without its own entry gets its nearest ancestor's backend |
| `BaseParses.GetBackendFailsIff` | pandera/api/base/parses.py:163-172 | Lookup fails exactly when no class of the MRO has an entry for the owner. The error names the type and the whole chain |
| `BaseParses.LookupScopedByOwner` | pandera/api/base/parses.py:155-169 | An entry registered through class C never changes a lookup made through a different class D |
| `BaseParses.RegisterThenLookup` | pandera/api/base/parses.py:155-169 | After registering a backend for a type through its owner, looking up an object of that exact type returns it |
| `BaseParses.MetaParse.RegisterBuiltinParseFn` | pandera/api/base/parses.py:129-133 | Returns fn unchanged. Stores `multidispatch(fn)` under fn's name, replacing any earlier entry. Keeps the table invariant and leaves the other tables alone |
| `BaseParses.MetaParse.GetBuiltinParseFn` | pandera/api/base/parses.py:135-138 | Succeeds exactly when the name is registered and returns the stored wrapper. Otherwise it fails with the missing-name KeyError |
| `BaseParses.MetaParse.ResolveAttr` | pandera/api/base/parses.py:82-95 | `__getattr__` fails only with the "not registered" AttributeError and never returns `None`. It succeeds exactly when the custom table maps the name to a non-None value, or, when the custom table lacks the name, the built-in table holds it or the class dictionary maps it to a non-None value |
| `BaseParses.MetaParse.HasAttr` | pandera/api/base/parses.py:114-117 | `hasattr(cls, name)` holds exactly when the class dictionary has the name, or the custom table maps it to a non-None value, or the custom table lacks it and the built-in table has it |
| `BaseParses.ResolveAttrPrecedence` | pandera/api/base/parses.py:82-95 | Custom beats built-in, which beats the class dictionary. The highest table holding the name decides; `None` there or no table at all gives the "not registered" AttributeError |
| `BaseParses.MetaParse.Contains` | pandera/api/base/parses.py:109-117 | The test succeeds exactly when the looked-up name is a string: a parse instance of the class contributes its `name`, any other item is itself the name. Otherwise `hasattr` raises TypeError |
| `BaseParses.ContainsRegisteredNames` | pandera/api/base/parses.py:109-117 | A name in the class dictionary, a built-in name, or a custom name with a non-None value is "in" the class. A name no table holds, or one the custom table maps to `None` outside the class dictionary, is not |
| `BaseParses.ContainsParseByName` | pandera/api/base/parses.py:110-114 | A parse instance of the class is "in" it exactly when its name is |
| `BaseParses.MergeKwargs` | pandera/api/base/parses.py:148 | The merged keywords hold every key of either map, and `parse_kwargs` wins on collisions |
| `BaseParses.CodeOf` | pandera/api/base/parses.py:197-200 | `fn.__code__.co_code` succeeds exactly for a plain function or a non-empty dispatch table, giving the function's code or the first entry's code. A partial or other callable fails with a missing `__code__` AttributeError; an empty table fails its assertion |
| `BaseParses.ParseFnCode` | pandera/api/base/parses.py:194-202 | A plain function gives its code. A dispatch table gives what its `__code__` gives: its base function's code when valid, and for an empty table the AssertionError, which the `except AttributeError` does not catch. A partial gives the code of the callable it wraps (one level). Any other callable raises AttributeError |
| `BaseParses.PartialArgumentsIgnored` | pandera/api/base/parses.py:194-202 | Partials of one function carry that function's code whatever arguments they bind, so those arguments never reach equality or hash |
| `BaseParses.StrategiesEqualIff` | pandera/api/base/parses.py:180-186 | Strategies compare equal unless both are partials that differ in func, args or keywords. A missing strategy on either side compares equal |
| `BaseParses.OtherAttributes` | pandera/api/base/parses.py:188-190 | The attributes compared by value are exactly the instance attributes other than `_parse_fn` and `strategy`: no key is added or dropped, and each keeps its value |
| `BaseParses.Eq` | pandera/api/base/parses.py:174-192 | NotImplemented exactly when the other object is not an instance of `type(self)`. For an instance, it raises exactly when either code cannot be read, self's error first. It is true exactly when the codes are equal, the strategies compare equal and all other attributes are equal |
| `BaseParses.Hash` | pandera/api/base/parses.py:204-205 | `__hash__` succeeds exactly when the code can be read, its value is the hash of the code and nothing else, and otherwise it raises the code-reading error |
| `BaseParses.EqReflexive` | pandera/api/base/parses.py:174-192 | A parse whose code can be read equals itself |
| `BaseParses.EqSymmetric` | pandera/api/base/parses.py:174-192 | For two instances of the same class with readable code, `a == b` and `b == a` agree |
| `BaseParses.EqualImpliesEqualHash` | pandera/api/base/parses.py:174-205 | Equal parses hash equal, for any hash function on code bytes |
| `BaseParses.MetadataOnlyDifferenceCollides` | pandera/api/base/parses.py:188-205 | Same callable, different other attributes: the two compare unequal but hash equal |
| `BaseParses.ClassAttributeRead` | pandera/api/base/parses.py:76-88 | `declared` is every name ordinary lookup finds on the class (class attributes, inherited classmethods, metaclass attributes), and such a name is found directly. Any name ordinary lookup does not find goes through `__getattr__`, which reads both tables first: with no frames left it fails, it can only fail with RecursionError, and it succeeds whenever both table names are declared and one frame remains |
| `BaseParses.AsWrittenRegistryReadRecurses` | pandera/api/base/parses.py:76-88 | For every class on which ordinary lookup does not find `PARSE_FUNCTION_REGISTRY` (as written, the metaclass declares `Parse_FUNCTION_REGISTRY`), reading that name re-enters `__getattr__` until the recursion limit, for every stack depth |
| `BaseParses.AsWrittenGetattrRecurses` | pandera/api/base/parses.py:82-88 | As written, every name that ordinary lookup does not find reaches `__getattr__` and raises RecursionError. A name ordinary lookup finds, such as `register_backend`, is unaffected |
| `BaseParses.IntendedRegistryReadResolves` | pandera/api/base/parses.py:76-88 | When ordinary lookup finds both tables, as the intended spelling gives, the table read succeeds directly and `__getattr__` reaches its merge in one frame for any other name |
| `MultiDispatch.New` | pandera/api/base/parses.py:132 | `multidispatch(fn)` is a valid table whose only entry is fn |
| `MultiDispatch.Register` | pandera/api/base/parses.py:66-67 | Registering puts fn in the table. It replaces the entry with fn's signature in place, or appends fn if there is none |
| `MultiDispatch.DunderCode` | pandera/api/base/parses.py:41-46 | `__code__` is the code of the first registered function. It fails exactly on an empty table and never on a valid one |
| `MultiDispatch.Reduce` | pandera/api/base/parses.py:48-60 | The pickled state is the wrapped base function plus every registered function, in order |
| `MultiDispatch.RegisterAll` | pandera/api/base/parses.py:66-67 | Registering a list in order keeps the base function, never shrinks the table, keeps the signature at every existing position, and leaves the last function registered in the table |
| `MultiDispatch.SetState` | pandera/api/base/parses.py:62-67 | Unpickling rebuilds from the wrapped function and re-registers the saved list, one by one, in the saved order |
| `MultiDispatch.PickleRoundTrip` | pandera/api/base/parses.py:48-67 | Unpickling what `__reduce__` saved gives back the same table, with every variant at its original position, so dispatch is unchanged |
| `MultiDispatch.RegisterAllPreservesValid` | pandera/api/base/parses.py:62-67 | Re-registering any list keeps signatures unique and the base signature first |
| `Parses.Parse.constructor` | pandera/api/parses.py:21-38 | Stores the callable, the keywords, `element_wise`, `title` and `description` as passed, with no strategy. A truthy name is kept; otherwise the name comes from the callable |
| `Parses.ExplicitNameKept` | pandera/api/parses.py:36 | A non-empty explicit name is stored unchanged |
| `Parses.MissingNameDerived` | pandera/api/parses.py:36 | With name None or empty, the name becomes the callable's `__name__`. A partial, which has none, gets `"partial"`, and a callable object without `__name__` gets its class name |
| `Parses.InitStoresArguments` | pandera/api/parses.py:33-38 | The instance dictionary has exactly the five attributes. Keywords, flag, title and description are stored verbatim, and there is no strategy |
| `Parses.BindInitArgs` | pandera/api/parses.py:21-29 | Binding `Parse(fn, **kws)`: the named keywords fill their parameters or take their defaults (False, None); every other keyword lands in `parse_kwargs` verbatim. Binding fails exactly when a keyword names `self` or `parse_fn` |
| `Parses.Parse.Call` | pandera/api/parses.py:65-66 | Fails exactly when no backend is registered along the object's MRO, with that error. Otherwise it returns the result of the backend found, run on this parse, the object and the column, unchanged |
| `Parses.FromBuiltinParseName` | pandera/api/base/parses.py:140-153 | Builds a fresh parse of the calling class from the named built-in and the bound merged keywords, or raises what the binding or lookup raises |
| `Parses.FromBuiltinArgs` | pandera/api/base/parses.py:140-153 | On success the name is a registered built-in and the parse wraps that built-in's dispatch table; `parse_kwargs` then clashes with none of `cls`, `name`, `init_kwargs`. A failure is either a KeyError for the name or a TypeError for a keyword naming one of `cls`, `name`, `init_kwargs`, `self`, `parse_fn` |
| `Parses.FromBuiltinMergesKeywords` | pandera/api/base/parses.py:148-153 | Every keyword of either map reaches the parse, as its parameter or inside `parse_kwargs`, and the `parse_kwargs` value wins |
| `Parses.FromBuiltinErrors` | pandera/api/base/parses.py:140-153 | Three kinds of failure. A `name` keyword clashes with the method's own parameter. Otherwise an unknown built-in name gives KeyError, exactly when it is absent. For a known name, binding fails exactly when the merged keywords name `self` or `parse_fn` |
| `Parses.FromBuiltinHashesByBaseCode` | pandera/api/base/parses.py:41-46 | A parse built from a registered built-in hashes by the code of that built-in's base function |
| `Parses.SameArgumentsEqual` | pandera/api/parses.py:33-38 | Two parses of one class built by `__init__` compare equal exactly when their callables' code, stored name, keywords, flag, title and description all agree. An omitted name and an explicit name equal to the derived one therefore match. Equal code gives equal hashes |
| `Parses.MetadataOnlyParsesCollide` | pandera/api/parses.py:37-38 | Two parses that differ only in title or description are unequal but hash equal |

## Left out

- Python reflection is replaced by explicit data:
  - `inspect.getmro` becomes a supplied ancestor list.
  - `__code__.co_code` becomes an abstract byte sequence per function.
  - The `functools.partial` unwrap covers one level. CPython's flattening of nested partials is not modelled.
- Object identity is approximated by structural equality of model values. Python compares functions and partials by identity, and `True == 1` holds in Python; neither is modelled.
- Two functions with the same `co_code` but different constants compare equal in Python. The model's abstract code cannot show this.
- Python's `hash` of bytes is not modelled. `Hash` takes an arbitrary hash function on code bytes, and the lemmas hold for every such function.
- The backends (`BaseParseBackend` and its subclasses) and the pandas objects they run on are opaque. A backend is an id. Running one is the `BackendRun` function parameter, and its result is an uninterpreted `ParseResult`.
- `MultiDispatch.New`: assumes that `multidispatch(fn)` stores the base function as the only entry of its table. The library's code is not part of this model.
- `MultiDispatch.Register`: assumes that registering a signature already present replaces its entry in place, keeping its position. `PickleRoundTrip` would still hold if the library removed and re-appended the key, because saved signatures are unique. `DunderCode` after re-registering the base signature would then give a different function's code.
- `BaseParses.MetaParse.RegisterBuiltinParseFn`: takes a plain function (`FunctionDef`). Python accepts any callable with a `__name__`, such as a dispatch table or a callable object that defines one.
- How the foreign multiple-dispatch library resolves a call by argument types is not modelled. The table is an ordered list keyed by signature. Pickling keeps this list intact.
- `__reduce__` also writes `__registered_functions__` into the live object's attributes. This side effect is not modelled.
- The `__code__` assertion is kept. Running Python with `-O` strips it; that case is not modelled.
- `__dir__` (autocompletion) and `__repr__` are cosmetic and left out.
- Thread safety of the class-level dictionaries is out of scope: the code is single-threaded.
- The extension API that fills the custom table is not part of this model. The custom table has no registering operation here.
- The `strategy` attribute is set by code that is not part of this model. The `Parse` class has the field, but only the constructor writes it, to absent.
- Ordinary attribute lookup on a parse class, used by `hasattr`, is taken to be the class dictionary argument. Inherited and metaclass attributes are assumed to be folded into it.
- Python's recursion limit is the `depth` parameter of `ClassAttributeRead`.
- `Parses.FromBuiltinArgs`, `Parses.FromBuiltinErrors`, `Parses.BindInitArgs`: Python raises one TypeError for a keyword clash, naming the first clashing keyword in the order the keywords were passed (a call passing `init_kwargs=` before `name=` reports `init_kwargs`). Dafny maps carry no order, so these members name the first in parameter order instead: `cls`, `name`, `init_kwargs` for `from_builtin_parse_name`, then `self`, `parse_fn` for `Parse.__init__`. The model does not capture which keyword Python names when several clash.
- `Parses.FromBuiltinParseName`: `cls` is taken to be `Parse` or a subclass that keeps its `__init__`, so the keywords are always bound against `Parse.__init__`. Called on `BaseParse` itself, whose `__init__` takes only `name`, Python binds differently; that case is not modelled.
- `BaseParses.InstanceDict` always holds a `_parse_fn`. A bare `BaseParse(name)` has none, and its `__eq__` and `__hash__` raise KeyError when reading it; every `Parse` sets the attribute, so this case is not modelled.
- End-to-end runs with a concrete stub backend are not modelled. `Parses.Parse.Call` states the delegation for every backend function.

## Findings

| source | as written | input that shows it | evidently intended | confidence | as-written member | corrected member |
|---|---|---|---|---|---|---|
| pandera/api/base/parses.py:76 | The metaclass declares `Parse_FUNCTION_REGISTRY`, but `__getattr__`, `__dir__`, `register_builtin_parse_fn` and `get_builtin_parse_fn` read `PARSE_FUNCTION_REGISTRY`. That name misses ordinary lookup and lands in `__getattr__`, whose first merge step reads it again | `Parse.register_builtin_parse_fn(f)`, `Parse.get_builtin_parse_fn("f")` or `Parse.f` raise RecursionError, not the promised result or AttributeError | One built-in table, read and written under one name, as the model's single `parseFunctionRegistry` field keeps it | medium, not executed (another module could set the attribute) | `BaseParses.AsWrittenRegistryReadRecurses` | `BaseParses.IntendedRegistryReadResolves` |
