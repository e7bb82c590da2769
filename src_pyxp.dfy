/**
 * The earlier version of the library, src/pyxp.py. Its nodes have the
 * same three operations under other names (`to_code`, `to_json`,
 * `Node.from_json`); its builder names an operator's result None instead
 * of by the symbol, and it has operator sugar for `+ - * /` only.
 */
module SrcPyxp {
  import opened Results
  import opened Tree
  import opened Strings
  import PyxpEval
  import PyxpRender
  import PyxpCodec
  import PyxpContext
  import PyxpBuilder

  /** `n.calc(context)`: literal identity, variable lookup, function lookup then params then call. */
  function Calc(n: Node, ctx: Context): Result<Binding, EvalError>
  {
    match n
    case Literal(v) => Ok(Val(v))
    case Variable(x) => if x in ctx then Ok(ctx[x]) else Err(UnboundName(x))
    case Function(name, ps) =>
      if name !in ctx then Err(UnboundName(name))
      else
        match CalcParams(ps, ctx)
        case Err(e) => Err(e)
        case Ok(args) => PyxpEval.Apply(name, ctx[name], args)
  }

  function CalcParams(ps: seq<Node>, ctx: Context): Result<seq<Binding>, EvalError>
  {
    if ps == [] then Ok([])
    else
      match Calc(ps[0], ctx)
      case Err(e) => Err(e)
      case Ok(v) =>
        match CalcParams(ps[1..], ctx)
        case Err(e) => Err(e)
        case Ok(vs) => Ok([v] + vs)
  }

  /** `n.to_code()`. */
  function ToCode(n: Node): string
  {
    match n
    case Literal(v) => IntToString(v)
    case Variable(x) => x
    case Function(name, ps) => "(" + name + " " + Join(" ", CodeOf(ps)) + ")"
  }

  function CodeOf(ps: seq<Node>): (r: seq<string>)
    ensures |r| == |ps|
  {
    if ps == [] then [] else [ToCode(ps[0])] + CodeOf(ps[1..])
  }

  /** `n.to_json()`, which in this version returns the structured value itself. */
  function ToJson(n: Node): Json
  {
    match n
    case Literal(v) => JObject(map["type" := JStr("Literal"), "value" := JInt(v)])
    case Variable(x) => JObject(map["type" := JStr("Variable"), "var_name" := JStr(x)])
    case Function(name, ps) =>
      JObject(map["type" := JStr("Function"), "func_name" := JStr(name), "params" := JArray(ToJsons(ps))])
  }

  function ToJsons(ps: seq<Node>): (r: seq<Json>)
    ensures |r| == |ps|
  {
    if ps == [] then [] else [ToJson(ps[0])] + ToJsons(ps[1..])
  }

  /** `Node.from_json(json)`: dispatch on `json['type']` through `types`, then read the class's fields. */
  function FromJson(j: Json): Result<Node, DecodeError>
  {
    match PyxpCodec.Field(j, "type")
    case Err(e) => Err(e)
    case Ok(tag) =>
      if tag == JStr("Literal") then
        match PyxpCodec.Field(j, "value")
        case Err(e) => Err(e)
        case Ok(JInt(v)) => Ok(Literal(v))
        case Ok(_) => Err(Malformed("value"))
      else if tag == JStr("Variable") then
        match PyxpCodec.Field(j, "var_name")
        case Err(e) => Err(e)
        case Ok(JStr(x)) => Ok(Variable(x))
        case Ok(_) => Err(Malformed("var_name"))
      else if tag == JStr("Function") then
        match PyxpCodec.Field(j, "func_name")
        case Err(e) => Err(e)
        case Ok(name) =>
          match PyxpCodec.Field(j, "params")
          case Err(e) => Err(e)
          case Ok(p) =>
            match FromParams(p)
            case Err(e) => Err(e)
            case Ok(ps) =>
              if name.JStr? then Ok(Function(name.s, ps)) else Err(Malformed("func_name"))
      else Err(UnknownNodeType(tag))
  }

  /** `[Node.from_json(p) for p in json['params']]`. */
  function FromParams(p: Json): Result<seq<Node>, DecodeError>
  {
    match p
    case JArray(items) => FromJsons(items)
    case JObject(m) => if m == map[] then Ok([]) else Err(NotAnObject)
    case JStr(s) => if s == "" then Ok([]) else Err(NotAnObject)
    case _ => Err(NotIterable("params"))
  }

  function FromJsons(items: seq<Json>): Result<seq<Node>, DecodeError>
  {
    if items == [] then Ok([])
    else
      match FromJson(items[0])
      case Err(e) => Err(e)
      case Ok(n) =>
        match FromJsons(items[1..])
        case Err(e) => Err(e)
        case Ok(ns) => Ok([n] + ns)
  }

  /** Both versions evaluate every node alike in every context. */
  lemma {:induction false} CalcAgrees(n: Node, ctx: Context)
    ensures Calc(n, ctx) == PyxpEval.Calc(n, ctx)
  {
    match n
    case Literal(_) =>
    case Variable(_) =>
    case Function(_, ps) =>
      CalcParamsAgree(ps, ctx);
  }

  lemma {:induction false} CalcParamsAgree(ps: seq<Node>, ctx: Context)
    ensures CalcParams(ps, ctx) == PyxpEval.CalcParams(ps, ctx)
  {
    if ps != [] {
      CalcAgrees(ps[0], ctx);
      CalcParamsAgree(ps[1..], ctx);
    }
  }

  /** Both versions render and serialise every node alike. */
  lemma {:induction false} ToCodeAgrees(n: Node)
    ensures ToCode(n) == PyxpRender.ToLispCode(n)
    ensures ToJson(n) == PyxpCodec.ToDict(n)
  {
    match n
    case Literal(_) =>
    case Variable(_) =>
    case Function(_, ps) =>
      CodeOfAgrees(ps);
  }

  lemma {:induction false} CodeOfAgrees(ps: seq<Node>)
    ensures CodeOf(ps) == PyxpRender.CodeOf(ps)
    ensures ToJsons(ps) == PyxpCodec.ToDicts(ps)
  {
    if ps != [] {
      ToCodeAgrees(ps[0]);
      CodeOfAgrees(ps[1..]);
    }
  }

  /** Both versions decode every structured value alike, errors included. */
  lemma {:induction false} FromJsonAgrees(j: Json)
    ensures FromJson(j) == PyxpCodec.FromDict(j)
  {
    if j.JObject? && "params" in j.fields {
      FromParamsAgrees(j.fields["params"]);
    }
  }

  lemma {:induction false} FromParamsAgrees(p: Json)
    ensures FromParams(p) == PyxpCodec.FromParams(p)
  {
    if p.JArray? {
      FromJsonsAgree(p.items);
    }
  }

  lemma {:induction false} FromJsonsAgree(items: seq<Json>)
    ensures FromJsons(items) == PyxpCodec.FromDicts(items)
  {
    if items != [] {
      FromJsonAgrees(items[0]);
      FromJsonsAgree(items[1..]);
    }
  }

  /** `Node.from_json(n.to_json())` is `n`, so `to_code` agrees before and after. */
  lemma RoundTrip(n: Node)
    ensures FromJson(ToJson(n)) == Ok(n)
    ensures ToCode(FromJson(ToJson(n)).value) == ToCode(n)
  {
    ToCodeAgrees(n);
    FromJsonAgrees(ToJson(n));
    PyxpCodec.RoundTrip(n);
  }

  /** `Node.from_json` fails on a `type` tag that is not a key of `types`. */
  lemma UnknownTypeFails(fields: map<string, Json>)
    requires "type" in fields && fields["type"] !in {JStr("Literal"), JStr("Variable"), JStr("Function")}
    ensures FromJson(JObject(fields)) == Err(UnknownNodeType(fields["type"]))
  {
  }

  /** `Factor.to_node`. */
  function ToNode(a: Arg): Node
  {
    match a
    case Placeholder(f) => f.value
    case Scalar(v) => Literal(v)
  }

  /** `FactorFactory.__getattr__`, reached for names that are not class attributes: a placeholder standing for the Variable `name`. */
  function Named(name: string): Factor
  {
    Factor(Some(name), Variable(name))
  }

  /** `FactorFactory.literal` (also reachable as `v` and `value`). */
  function LiteralFactor(v: int): Factor
  {
    Factor(None, Literal(v))
  }

  /** The names `FactorFactory` binds as class attributes: `literal` and its aliases `v` and `value`. */
  const FactoryMethods: set<string> := {"literal", "v", "value"}

  /**
   * `getattr(ff, name)` for a plain attribute name: a class attribute is
   * found before `__getattr__` is consulted, so the three method names give
   * the literal-wrapping method (None here) instead of a placeholder.
   */
  function Attribute(name: string): Option<Factor>
  {
    if name in FactoryMethods then None else Some(Named(name))
  }

  /** `Factor.__call__`; a nameless placeholder is refused, as in the other version. */
  function Call(f: Factor, args: seq<Arg>): Option<Factor>
  {
    match f.name
    case None => None
    case Some(name) => Some(Factor(f.name, Function(name, seq(|args|, i requires 0 <= i < |args| => ToNode(args[i])))))
  }

  /** `x.op(symbol, y)`: in this version the resulting placeholder has no name. */
  function Op(x: Factor, symbol: string, y: Arg): Factor
  {
    Factor(None, Function(symbol, [x.value, ToNode(y)]))
  }

  function Add(x: Factor, y: Arg): Factor { Op(x, "+", y) }
  function Sub(x: Factor, y: Arg): Factor { Op(x, "-", y) }
  function Mul(x: Factor, y: Arg): Factor { Op(x, "*", y) }
  function Div(x: Factor, y: Arg): Factor { Op(x, "/", y) }

  /**
   * The two builders agree except on the name of an operator's result
   * (the same tree, named by the symbol in one version and None here) and
   * on attribute access: here `ff.literal`, `ff.v` and `ff.value` are the
   * literal-wrapping method, while the other version's factory gives a
   * placeholder for every name.
   */
  lemma BuilderAgrees(f: Factor, args: seq<Arg>, x: Factor, symbol: string, y: Arg, name: string, v: int)
    ensures ToNode(y) == PyxpBuilder.ToNode(y)
    ensures Call(f, args) == PyxpBuilder.Call(f, args)
    ensures Named(name) == PyxpBuilder.Named(name) && LiteralFactor(v) == PyxpBuilder.LiteralFactor(v)
    ensures Attribute(name) == Some(PyxpBuilder.Named(name)) <==> name !in FactoryMethods
    ensures Op(x, symbol, y).value == PyxpBuilder.Op(x, symbol, y).value
    ensures Op(x, symbol, y).name == None && PyxpBuilder.Op(x, symbol, y).name == Some(symbol)
    ensures Add(x, y).value == PyxpBuilder.BinaryOp(PyxpContext.Add, x, y).value
    ensures Sub(x, y).value == PyxpBuilder.BinaryOp(PyxpContext.Sub, x, y).value
    ensures Mul(x, y).value == PyxpBuilder.BinaryOp(PyxpContext.Mul, x, y).value
    ensures Div(x, y).value == PyxpBuilder.BinaryOp(PyxpContext.Div, x, y).value
  {
    var nodes := seq(|args|, i requires 0 <= i < |args| => ToNode(args[i]));
    assert nodes == PyxpBuilder.ToNodes(args);
  }

  /**
   * `build_exp1`: `f(10, 10) + g(f(a + 1, 2)) + 1`. The names `f`, `g` and
   * `a` are not class attributes of the factory, so each reaches `__getattr__`.
   */
  function BuildExp1(): Factor
  {
    var f, g, a := Named("f"), Named("g"), Named("a");
    var inner := Call(f, [Placeholder(Add(a, Scalar(1))), Scalar(2)]).value;
    var outer := Call(g, [Placeholder(inner)]).value;
    var square := Call(f, [Scalar(10), Scalar(10)]).value;
    Add(Add(square, Placeholder(outer)), Scalar(1))
  }

  /** `lambda x, y: x + y`. */
  function Plus(args: seq<int>): Result<int, EvalError>
  {
    if |args| != 2 then Err(ArityOrType) else Ok(args[0] + args[1])
  }

  /** `lambda x, y: x * y`. */
  function Times(args: seq<int>): Result<int, EvalError>
  {
    if |args| != 2 then Err(ArityOrType) else Ok(args[0] * args[1])
  }

  /** `lambda x: x * 2`. */
  function Twice(args: seq<int>): Result<int, EvalError>
  {
    if |args| != 1 then Err(ArityOrType) else Ok(args[0] * 2)
  }

  /** The context of `test1`. */
  function Exp1Context(): Context
  {
    map["+" := Fn(Plus), "f" := Fn(Times), "g" := Fn(Twice), "a" := Val(1)]
  }

  lemma InnerValue()
    ensures PyxpEval.Calc(Call(Named("g"), [Placeholder(Call(Named("f"), [Placeholder(Add(Named("a"), Scalar(1))), Scalar(2)]).value)]).value.value,
                          Exp1Context()) == Ok(Val(8))
  {
    var ctx := Exp1Context();
    var sum := Add(Named("a"), Scalar(1));
    assert PyxpEval.Calc(Variable("a"), ctx) == Ok(Val(1));
    PyxpEval.CalcCall("+", sum.value.params, ctx, [1, 1]);
    var inner := Call(Named("f"), [Placeholder(sum), Scalar(2)]).value;
    PyxpEval.CalcCall("f", inner.value.params, ctx, [2, 2]);
    var outer := Call(Named("g"), [Placeholder(inner)]).value;
    PyxpEval.CalcCall("g", outer.value.params, ctx, [4]);
  }

  /** `test1`: the expression evaluates to 109. */
  lemma Exp1Value()
    ensures Calc(BuildExp1().value, Exp1Context()) == Ok(Val(109))
  {
    var ctx := Exp1Context();
    var inner := Call(Named("f"), [Placeholder(Add(Named("a"), Scalar(1))), Scalar(2)]).value;
    var outer := Call(Named("g"), [Placeholder(inner)]).value;
    var square := Call(Named("f"), [Scalar(10), Scalar(10)]).value;
    InnerValue();
    PyxpEval.CalcCall("f", square.value.params, ctx, [10, 10]);
    var left := Add(square, Placeholder(outer));
    PyxpEval.CalcCall("+", left.value.params, ctx, [100, 8]);
    PyxpEval.CalcCall("+", BuildExp1().value.params, ctx, [108, 1]);
    CalcAgrees(BuildExp1().value, ctx);
  }

  /** `test2`: the expression's code is the same after a trip through its structured form. */
  lemma Exp1RoundTrip()
    ensures FromJson(ToJson(BuildExp1().value)).Ok?
    ensures ToCode(FromJson(ToJson(BuildExp1().value)).value) == ToCode(BuildExp1().value)
  {
    RoundTrip(BuildExp1().value);
  }
}
