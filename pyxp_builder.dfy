/**
 * The expression builder of pyxp/pyxp.py: `Factor`, its call and operator
 * methods, `to_node`, and the two `FactorFactory` entry points.
 */
module PyxpBuilder {
  import opened Results
  import opened Tree
  import opened PyxpContext
  import opened PyxpEval
  import PyxpRender

  /** `val.<name>` (`FactorFactory.__getattr__`): a placeholder standing for the Variable `name`. */
  function Named(name: string): Factor
  {
    Factor(Some(name), Variable(name))
  }

  /** `val(value)` (`FactorFactory.__call__`): a nameless placeholder holding a Literal. */
  function LiteralFactor(v: int): Factor
  {
    Factor(None, Literal(v))
  }

  /** `Factor.to_node`: a placeholder gives its node; anything else is wrapped in a Literal. */
  function ToNode(a: Arg): Node
  {
    match a
    case Placeholder(f) => f.value
    case Scalar(v) => Literal(v)
  }

  function ToNodes(args: seq<Arg>): (r: seq<Node>)
    ensures |r| == |args| && forall i :: 0 <= i < |args| ==> r[i] == ToNode(args[i])
  {
    seq(|args|, i requires 0 <= i < |args| => ToNode(args[i]))
  }

  /**
   * `f(*args)` (`Factor.__call__`): a Function named by the placeholder,
   * over the arguments' nodes, in a new placeholder of the same name.
   * A nameless placeholder is refused (see the README).
   */
  function Call(f: Factor, args: seq<Arg>): Option<Factor>
  {
    match f.name
    case None => None
    case Some(name) => Some(Factor(f.name, Function(name, ToNodes(args))))
  }

  /** `x.op(symbol, y)`: a two-param Function named by the symbol, in a placeholder named by it too. */
  function Op(x: Factor, symbol: string, y: Arg): Factor
  {
    Factor(Some(symbol), Function(symbol, [x.value, ToNode(y)]))
  }

  /** The operator methods `__add__` .. `__rshift__` that `update_factor_class` installs. */
  function BinaryOp(o: Operator, x: Factor, y: Arg): Factor
  {
    Op(x, o.Symbol(), y)
  }

  /**
   * The shapes the builder produces: a call is a Function of the
   * placeholder's name over the coerced arguments, in order; an operator
   * is a Function of its symbol over the left node and the coerced right
   * operand; `val(v)` and a raw `v` give the same node.
   */
  lemma BuilderShapes(f: Factor, args: seq<Arg>, x: Factor, symbol: string, o: Operator, y: Arg, v: int, name: string)
    ensures Call(f, args).Some? <==> f.name.Some?
    ensures Call(f, args).Some? ==>
              && Call(f, args).value.name == f.name
              && Call(f, args).value.value == Function(f.name.value, ToNodes(args))
    ensures Op(x, symbol, y) == Factor(Some(symbol), Function(symbol, [x.value, ToNode(y)]))
    ensures BinaryOp(o, x, y) == Factor(Some(o.Symbol()), Function(o.Symbol(), [x.value, ToNode(y)]))
    ensures ToNode(Placeholder(x)) == x.value
    ensures ToNode(Placeholder(LiteralFactor(v))) == ToNode(Scalar(v)) == Literal(v)
    ensures ToNode(Placeholder(Named(name))) == Variable(name)
  {
  }

  /**
   * A built call evaluates to what the callable bound to the placeholder's
   * name returns on the arguments' values, in order.
   */
  lemma CallEvaluation(f: Factor, args: seq<Arg>, ctx: Context, xs: seq<int>)
    requires f.name.Some? && f.name.value in ctx && ctx[f.name.value].Fn?
    requires |xs| == |args| && forall i :: 0 <= i < |args| ==> Calc(ToNode(args[i]), ctx) == Ok(Val(xs[i]))
    ensures Call(f, args).Some?
    ensures Calc(Call(f, args).value.value, ctx) ==
              match ctx[f.name.value].call(xs)
              case Ok(r) => Ok(Val(r))
              case Err(e) => Err(e)
  {
    CalcCall(f.name.value, ToNodes(args), ctx, xs);
  }

  /**
   * Under the default binding of its symbol, an operator built from two
   * operands that evaluate to integers evaluates to Python's result of
   * the operator on them.
   */
  lemma BinaryOpEvaluation(o: Operator, x: Factor, y: Arg, ctx: Context, a: int, b: int)
    requires o.Symbol() in ctx && ctx[o.Symbol()] == DefaultContext[o.Symbol()]
    requires Calc(x.value, ctx) == Ok(Val(a)) && Calc(ToNode(y), ctx) == Ok(Val(b))
    ensures Calc(BinaryOp(o, x, y).value, ctx) ==
              match IntOp(o, a, b)
              case Ok(r) => Ok(Val(r))
              case Err(e) => Err(e)
  {
    DefaultTable(o);
    CalcCall(o.Symbol(), [x.value, ToNode(y)], ctx, [a, b]);
  }

  /**
   * `val(v) + x` and `x + v` evaluate alike under the default `+`: the
   * explicit literal wrapper on the left changes nothing but the order.
   */
  lemma AddSugarSymmetric(x: Factor, v: int, ctx: Context)
    requires "+" in ctx && ctx["+"] == DefaultContext["+"]
    ensures Calc(BinaryOp(Add, LiteralFactor(v), Placeholder(x)).value, ctx) ==
            Calc(BinaryOp(Add, x, Scalar(v)).value, ctx)
  {
    var lp := [Literal(v), x.value];
    var rp := [x.value, Literal(v)];
    assert BinaryOp(Add, LiteralFactor(v), Placeholder(x)).value == Function("+", lp);
    assert BinaryOp(Add, x, Scalar(v)).value == Function("+", rp);
    match Calc(x.value, ctx)
    case Err(e) =>
      assert FirstFailure(lp, ctx, 1);
      assert FirstFailure(rp, ctx, 0);
      CalcParamsFirstError(lp, ctx, 1);
      CalcParamsFirstError(rp, ctx, 0);
    case Ok(b) =>
      CalcParamsOk(lp, ctx, [Val(v), b]);
      CalcParamsOk(rp, ctx, [b, Val(v)]);
      if b.Val? {
        var xl, xr := Ints([Val(v), b]), Ints([b, Val(v)]);
        assert xl.Some? && |xl.value| == 2 && xl.value[0] == v && xl.value[1] == b.v;
        assert xr.Some? && |xr.value| == 2 && xr.value[0] == b.v && xr.value[1] == v;
      }
  }
}
