# pyxp expression trees in Dafny

pyxp is a small embedded expression language. A caller builds expression
trees through placeholders (`val.a`, `val.f(1, 2)`, `a + b`). A tree has
three node classes: `Literal`, `Variable` and `Function`. It can be
evaluated against a context that binds names to values and callables. It
can be rendered as lisp-like prefix code, and converted to a tagged
dictionary and back.

This project models both versions of the library:

- `pyxp/pyxp.py`, the packaged version.
- `src/pyxp.py`, an earlier one whose node operations are called `to_code`,
  `to_json` and `Node.from_json`.

Modules:

- `Tree` (tree.dfy) holds the data both versions share:
  - the `Node` datatype;
  - `Binding`, a plain integer or a callable, and `Context`, a map from names to bindings;
  - the JSON-like `Json` value that `to_dict` produces;
  - the builder's `Factor` and `Arg`;
  - the two error types, `EvalError` and `DecodeError`.
- `Results` holds `Option` and `Result`.
- `Strings` holds Python's `str` of an int, `' '.join`, and character counting.
- `PyxpEval` models `calc`.
- `PyxpRender` models `to_lisp_code`.
- `PyxpCodec` models `to_dict`, the per-class `from_dict`, and the module-level `from_dict` that dispatches through `types`.
- `PyxpContext` models `DEFAULT_CONTEXT` and `context()`. Each operator has Python's integer semantics. The `/` operator is Python 2's `operator.div`, which is floor division.
- `PyxpBuilder` models `Factor`, its call, `op`, the installed operator methods, `to_node`, and `FactorFactory`.
- `PyxpExamples` holds the expressions of `tests/exps.py`, evaluated.
- `SrcPyxp` models `src/pyxp.py`:
  - its own copies of the node operations, with lemmas proving that they agree with the packaged ones on every input;
  - its builder, whose `op` leaves the result nameless;
  - `build_exp1` and its two tests.

`context()` is the one imperative operation. `PyxpContext.MakeContext`
copies the default table into a local map, updates it with the caller's
mapping, then with the keyword overrides. It is proved equal to the
specification function `PyxpContext.Merged`. Every other core operation
is pure recursion over an immutable tree, so it is modelled as a function.

Evaluation follows the source's order:

1. Look up the Function's name. An unbound name fails before any param is evaluated.
2. Evaluate the params left to right. The first failure aborts the evaluation.
3. If the name is bound to a plain value, fail with `NotCallable`, as Python's call does.
4. Otherwise call the callable on the param values, in order.

Decoding follows Python's behaviour on inputs of the wrong shape:

- Subscripting a value that is not a mapping fails (`NotAnObject`).
- A missing key fails (`MissingField`).
- A tag that is not a key of `types` fails (`UnknownNodeType`).
- Fields other than the ones a class reads are ignored.
- `params` is iterated. An empty mapping or an empty string therefore decodes as an empty list of params. A non-empty one fails on its first element. A number, boolean or null is not iterable.

On these points the model follows the code:

- `/` is floor division, not truncation.
- Decoding accepts `params` given as `{}` or `""`.
- Variable names may be empty.

## Model

| member | source | states |
|---|---|---|
| `PyxpEval.Calc` | pyxp/pyxp.py:26-72 | `calc` of the three node classes. CalcLiteral, CalcVariable, CalcFunction and CalcLocal carry its contract |
| `PyxpEval.CalcParams` | pyxp/pyxp.py:71 | The params list comprehension. CalcParamsOk, CalcParamsFirstError and CalcParamsOutcome carry its contract |
| `PyxpEval.Apply` | pyxp/pyxp.py:72 | `f(*params)`: NotCallable on a plain value, else the callable's result. CalcCall carries its contract |
| `PyxpEval.CalcLiteral` | pyxp/pyxp.py:26-27 | A Literal evaluates to its own value in every context and never fails |
| `PyxpEval.CalcVariable` | pyxp/pyxp.py:47-48 | A Variable evaluates to exactly its binding; it fails with UnboundName, with no default, exactly when the name is absent |
| `PyxpEval.CalcFunction` | pyxp/pyxp.py:69-72 | An unbound function name fails before any param is evaluated; otherwise the first failing param's error aborts the call; otherwise the bound value is applied to the param values in order |
| `PyxpEval.CalcCall` | pyxp/pyxp.py:69-72 | A Function bound to a callable, whose params evaluate to integers, returns the callable's result or error unchanged |
| `PyxpEval.CalcParamsOk` | pyxp/pyxp.py:71 | The params evaluate to `vs` if and only if `vs` has one entry per param and each param evaluates to its entry |
| `PyxpEval.CalcParamsFirstError` | pyxp/pyxp.py:71 | When some param fails and all before it succeed, the params fail with that param's error |
| `PyxpEval.CalcParamsOutcome` | pyxp/pyxp.py:71 | The params succeed if and only if every param does; a failure always carries the error of a first failing param |
| `PyxpEval.CalcLocal` | pyxp/pyxp.py:47-72 | Evaluation consults only the names the tree mentions: two contexts that agree on them give the same result |
| `PyxpRender.ToLispCode` | pyxp/pyxp.py:29-76 | `to_lisp_code` of the three classes. RenderLiteral, RenderZeroArgs and RenderParens carry its contract |
| `PyxpRender.CodeOf` | pyxp/pyxp.py:75 | One rendered string per param, in order |
| `Strings.IntToString` | pyxp/pyxp.py:30 | `str` of an int. IntToStringRoundTrip carries its contract |
| `PyxpRender.RenderZeroArgs` | pyxp/pyxp.py:74-76 | A zero-argument call renders as `(name )`, keeping the space after the name |
| `PyxpRender.RenderLiteral` | pyxp/pyxp.py:29-30 | A Literal renders as decimal text that reads back as its value |
| `PyxpRender.RenderParens` | pyxp/pyxp.py:74-76 | When no name contains a parenthesis, a rendering has exactly one `(` and one `)` per Function node |
| `Strings.NatToString` | pyxp/pyxp.py:30 | `str` of a non-negative int is a non-empty string of decimal digits with a leading zero only for 0 |
| `Strings.IntToStringRoundTrip` | pyxp/pyxp.py:30 | `str` of any int, sign included, reads back as the same int |
| `PyxpCodec.ToDict` | pyxp/pyxp.py:32-80 | `to_dict` of the three classes. RoundTrip and ToDictInjective carry its contract |
| `PyxpCodec.ToDicts` | pyxp/pyxp.py:80 | One structured value per param, in order |
| `PyxpCodec.FromDict` | pyxp/pyxp.py:182-184 | The module-level `from_dict` dispatching to each class's own (lines 36-37, 57-58, 83-85). RoundTrip, DecodeFailures and DecodeFunctionParamFailure carry its contract |
| `PyxpCodec.FromParams` | pyxp/pyxp.py:85 | Iterating `d['params']`. DecodeFailures and RoundTrip carry its contract |
| `PyxpCodec.FromDicts` | pyxp/pyxp.py:85 | A decoded list, when there is one, has one node per item. DecodeParamFailure carries its error case |
| `PyxpCodec.RoundTrip` | pyxp/pyxp.py:182-184 | Decoding an encoded tree gives back the same tree: variant, names, values and param order |
| `PyxpCodec.ToDictInjective` | pyxp/pyxp.py:78-80 | Two trees with the same structured form are equal |
| `PyxpCodec.RenderSurvivesRoundTrip` | tests/exps.py:41-44 | Decoding the encoded tree succeeds and renders the same code as the original |
| `PyxpCodec.DecodeFailures` | pyxp/pyxp.py:182-184 | Decoding fails on a missing `type`, on a tag outside Literal/Variable/Function, and on a missing `value`, `var_name`, `func_name` or `params` |
| `PyxpCodec.DecodeParamFailure` | pyxp/pyxp.py:85 | When every param before the `k`-th decodes and the `k`-th fails, the list fails with the `k`-th param's own error; no partial tree comes back and no error is replaced |
| `PyxpCodec.DecodeFunctionParamFailure` | pyxp/pyxp.py:83-85 | A Function whose params hold a first failing node fails to decode with that node's own error |
| `PyxpContext.Power` | pyxp/pyxp.py:136 | `operator.pow` on a non-negative exponent; a positive base gives a positive power |
| `PyxpContext.FloorDiv` | pyxp/pyxp.py:135 | `operator.div` on ints. FloorDivIsFloor carries its contract |
| `PyxpContext.IntOp` | pyxp/pyxp.py:131-139 | The seven operators on two ints, with Python's errors. BinaryOpEvaluation, FloorDivIsFloor and ShiftRoundTrip carry its contract |
| `PyxpContext.OperatorFn` | pyxp/pyxp.py:131-139 | Each operator as a two-argument callable. DefaultTable and BinaryOpEvaluation carry its contract |
| `PyxpContext.Merged` | pyxp/pyxp.py:163-169 | The merged context has every default, caller and keyword key; a keyword binding beats the caller's, which beats the default |
| `PyxpContext.MakeContext` | pyxp/pyxp.py:163-169 | Copying the defaults and updating with the caller's map and then the keywords gives the merged context |
| `PyxpContext.DefaultTable` | pyxp/pyxp.py:131-139 | The default table binds exactly `+ - * / ** << >>`, each to its own operator |
| `PyxpContext.FloorDivIsFloor` | pyxp/pyxp.py:135 | Integer `/` gives the floor of the exact quotient, for either sign of the divisor |
| `PyxpContext.ShiftRoundTrip` | pyxp/pyxp.py:137-138 | For a non-negative count, `(a << b) >> b == a` |
| `PyxpBuilder.Named` | pyxp/pyxp.py:173-174 | `val.<name>`: a placeholder for the Variable `name`. BuilderShapes carries its contract |
| `PyxpBuilder.LiteralFactor` | pyxp/pyxp.py:176-177 | `val(value)`: a nameless placeholder holding a Literal. BuilderShapes carries its contract |
| `PyxpBuilder.ToNode` | pyxp/pyxp.py:122-128 | `Factor.to_node`. BuilderShapes carries its contract |
| `PyxpBuilder.ToNodes` | pyxp/pyxp.py:103 | One node per argument, each the argument's `to_node`, in order |
| `PyxpBuilder.Call` | pyxp/pyxp.py:102-104 | `Factor.__call__`. BuilderShapes and CallEvaluation carry its contract |
| `PyxpBuilder.Op` | pyxp/pyxp.py:106-108 | `Factor.op`. BuilderShapes carries its contract |
| `PyxpBuilder.BinaryOp` | pyxp/pyxp.py:142-160 | The operator methods installed by `update_factor_class`. BuilderShapes and BinaryOpEvaluation carry its contract |
| `PyxpBuilder.BuilderShapes` | pyxp/pyxp.py:102-128 | A call builds a Function named by the placeholder over the coerced arguments, in order (the model refuses a nameless placeholder, as "## Left out" says); `op` with any symbol builds a two-param Function named by the symbol, in a placeholder of that name, and each installed operator is `op` with its own symbol; `to_node` passes any placeholder's node through, built ones included, and wraps a scalar in a Literal |
| `PyxpBuilder.CallEvaluation` | pyxp/pyxp.py:102-104 | A built call evaluates to what the callable bound to its name returns on the arguments' values |
| `PyxpBuilder.BinaryOpEvaluation` | pyxp/pyxp.py:142-160 | Under the default binding, an operator built from operands that evaluate to integers gives Python's result of that operator on them, errors included |
| `PyxpBuilder.AddSugarSymmetric` | tests/exps.py:57-61 | `val(v) + x` and `x + v` evaluate alike under the default `+`, for every placeholder `x` and context |
| `PyxpExamples.DefaultsKept` | pyxp/pyxp.py:163-169 | Adding only variables and functions through keywords keeps every default operator binding |
| `PyxpExamples.BasicOperators` | tests/exps.py:63-68 | With a = 10 and b = 2: `+` gives 12, `*` 20, `/` 5, `**` 100, `<<` 40, `>>` 2 |
| `PyxpExamples.LiteralOnEitherSide` | tests/exps.py:60-61 | `val(2) + a` and `a + 2` both give 12 |
| `PyxpExamples.BasicUseCase` | tests/exps.py:5-25 | `double(a + b) + add(a, b) - my_sum(a, b) * 2` gives 12 |
| `PyxpExamples.ComplexDifference` | tests/exps.py:88 | `double(a + b) + add(a, b) - my_sum(a, b)` gives 24 |
| `PyxpExamples.ComplexVariadic` | tests/exps.py:89 | `my_sum(1, 2, 3, 4, a - b, my_sum(a, b))` gives 30 |
| `SrcPyxp.Calc` | src/pyxp.py:15-61 | This version's `calc`. CalcAgrees carries its contract |
| `SrcPyxp.CalcParams` | src/pyxp.py:60 | The params list comprehension. CalcAgrees carries its contract |
| `SrcPyxp.ToCode` | src/pyxp.py:18-65 | `to_code`. ToCodeAgrees carries its contract |
| `SrcPyxp.CodeOf` | src/pyxp.py:64 | One rendered string per param, in order |
| `SrcPyxp.ToJson` | src/pyxp.py:21-69 | `to_json` of the three classes. ToCodeAgrees and RoundTrip carry its contract |
| `SrcPyxp.ToJsons` | src/pyxp.py:69 | One structured value per param, in order |
| `SrcPyxp.FromJson` | src/pyxp.py:5-74 | `Node.from_json` and the per-class `from_json`. FromJsonAgrees, RoundTrip and UnknownTypeFails carry its contract |
| `SrcPyxp.FromParams` | src/pyxp.py:74 | Iterating `json['params']`. FromJsonAgrees carries its contract |
| `SrcPyxp.FromJsons` | src/pyxp.py:74 | Decoding the params in order. FromJsonAgrees carries its contract |
| `SrcPyxp.CalcAgrees` | src/pyxp.py:58-61 | This version's `calc` (with Literal at lines 15-16 and Variable at 36-37) gives the same result as the packaged one for every node and context |
| `SrcPyxp.ToCodeAgrees` | src/pyxp.py:63-69 | This version's `to_code` and `to_json` equal the packaged `to_lisp_code` and `to_dict` on every node |
| `SrcPyxp.FromJsonAgrees` | src/pyxp.py:71-74 | This version's `Node.from_json` equals the packaged `from_dict` on every structured value, errors included |
| `SrcPyxp.RoundTrip` | src/pyxp.py:5-8 | `Node.from_json(n.to_json())` is `n`, so `to_code` is the same before and after |
| `SrcPyxp.UnknownTypeFails` | src/pyxp.py:79-83 | `Node.from_json` fails when the `type` tag is not a key of `types` |
| `SrcPyxp.ToNode` | src/pyxp.py:120-126 | `Factor.to_node`. BuilderAgrees carries its contract |
| `SrcPyxp.Named` | src/pyxp.py:130-131 | `FactorFactory.__getattr__`. BuilderAgrees carries its contract |
| `SrcPyxp.LiteralFactor` | src/pyxp.py:133-137 | `FactorFactory.literal` and its aliases `v` and `value`. BuilderAgrees carries its contract |
| `SrcPyxp.Attribute` | src/pyxp.py:129-137 | Attribute access on the factory: `literal`, `v` and `value` are class attributes, every other name reaches `__getattr__`. BuilderAgrees carries its contract |
| `SrcPyxp.Call` | src/pyxp.py:91-93 | `Factor.__call__`. BuilderAgrees carries its contract |
| `SrcPyxp.Op` | src/pyxp.py:95-97 | `Factor.op`, whose result is nameless. BuilderAgrees carries its contract |
| `SrcPyxp.Add` | src/pyxp.py:99-100 | `__add__`. BuilderAgrees carries its contract |
| `SrcPyxp.Sub` | src/pyxp.py:102-103 | `__sub__`. BuilderAgrees carries its contract |
| `SrcPyxp.Mul` | src/pyxp.py:105-106 | `__mul__`. BuilderAgrees carries its contract |
| `SrcPyxp.Div` | src/pyxp.py:108-109 | `__div__`. BuilderAgrees carries its contract |
| `SrcPyxp.BuildExp1` | src/pyxp.py:140-146 | `build_exp1`. Exp1Value and Exp1RoundTrip carry its contract |
| `SrcPyxp.BuilderAgrees` | src/pyxp.py:91-137 | The builders agree on `to_node`, calls, `__getattr__` and literals; attribute access agrees exactly for names other than `literal`, `v` and `value`; `op` and `+ - * /` build the same tree as the other version but leave the result nameless, while that one names it by the symbol |
| `SrcPyxp.Exp1Value` | src/pyxp.py:140-161 | `f(10, 10) + g(f(a + 1, 2)) + 1` gives 109 with f = x*y, g = x*2, a = 1 and `+` = add |
| `SrcPyxp.Exp1RoundTrip` | src/pyxp.py:164-171 | The code of `build_exp1` is the same after a trip through its structured form |

## Left out

- JSON text: `to_json`/`from_json` in pyxp/pyxp.py (lines 15-16, 187-188) and `json.dumps`/`json.loads` in src/pyxp.py's test are library calls. The model stops at the structured value.
- Values: literals and bound values are integers only. Floats, booleans and strings as literal values are not modelled. Decoding a `value` that is not an integer, or a `var_name`/`func_name` that is not a string, is refused with `Malformed`. The source would build such a node.
- Callables take and return integers. In the source a callable can receive or return any Python object. In the model, a callable passed as an argument to another callable fails with `ArityOrType`. A Variable bound to a callable still evaluates to that binding.
- `**` with a negative exponent gives a float in Python. The model returns the `NegativeExponent` error instead.
- `/` is Python 2's `operator.div`, which is floor division on ints. pyxp/pyxp.py imports `operator.div`, which Python 3 lacks. The model takes the Python 2 reading.
- `update_factor_class` and `make_op_method` install the operator methods with `setattr`. The model gives one function, `PyxpBuilder.BinaryOp`, over an `Operator` enumeration.
- In pyxp/pyxp.py, `FactorFactory.__getattr__` builds a placeholder from any attribute name. It is modelled as the explicit `Named(name)`. The module-level `val` instance is not modelled.
- SrcPyxp.Named: this models `__getattr__` itself. In src/pyxp.py, `literal`, `v` and `value` are class attributes of the factory. Python finds them before `__getattr__`, so they give the literal-wrapping method, not a placeholder. `SrcPyxp.Attribute` models that shadowing for those three names. Other attributes found on the class first, such as the dunder names inherited from `object`, are not modelled in either version.
- PyxpBuilder.Call: calling a nameless placeholder, such as `val(2)(...)` or, in src/pyxp.py, `(a + b)(...)`, builds a Function named `None` in the source. The model refuses it and returns `None`. That node could only render as `(None ...)` and could not be looked up in a context with string keys.
- SrcPyxp.Call: the same refusal as in PyxpBuilder.Call.
- `Factor.calc`, `to_dict`, `to_json` and `to_lisp_code`/`to_code` only delegate to the placeholder's node. The model applies the node operations to `Factor.value`.
- `context(context_dict__=None, **kwargs)`: a missing or empty caller mapping is the empty map. Context keys are strings.
- Errors are modelled as `Err` values, not Python exceptions. Which exception class Python raises is named only in comments.
- `__repr__`, `__str__`, the `print` calls of src/pyxp.py's tests, and `setup.py` are not modelled. They cover debugging output and packaging.
