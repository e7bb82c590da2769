/**
 * Evaluation of a node against a context (`calc` of Literal, Variable and
 * Function in pyxp/pyxp.py).
 */
module PyxpEval {
  import opened Results
  import opened Tree

  /**
   * `n.calc(context_)`. A Literal yields its value; a Variable yields its
   * binding; a Function first looks up its name, then evaluates its
   * params left to right, then applies what the name is bound to.
   */
  function Calc(n: Node, ctx: Context): Result<Binding, EvalError>
  {
    match n
    case Literal(v) => Ok(Val(v))
    case Variable(x) => if x in ctx then Ok(ctx[x]) else Err(UnboundName(x))
    case Function(name, ps) =>
      if name !in ctx then Err(UnboundName(name))
      else
        match CalcParams(ps, ctx)
        case Err(e) => Err(e)
        case Ok(args) => Apply(name, ctx[name], args)
  }

  /** `[p.calc(context_) for p in self.params]`: the first failure aborts the list. */
  function CalcParams(ps: seq<Node>, ctx: Context): Result<seq<Binding>, EvalError>
  {
    if ps == [] then Ok([])
    else
      match Calc(ps[0], ctx)
      case Err(e) => Err(e)
      case Ok(v) =>
        match CalcParams(ps[1..], ctx)
        case Err(e) => Err(e)
        case Ok(vs) => Ok([v] + vs)
  }

  /** `f(*params)`: calling a plain value fails; a callable gets the integer arguments. */
  function Apply(name: string, f: Binding, args: seq<Binding>): Result<Binding, EvalError>
  {
    match f
    case Val(_) => Err(NotCallable(name))
    case Fn(call) =>
      match Ints(args)
      case None => Err(ArityOrType)
      case Some(xs) =>
        match call(xs)
        case Err(e) => Err(e)
        case Ok(v) => Ok(Val(v))
  }

  /** The integers held by `args`, or None when one of them is a callable. */
  function Ints(args: seq<Binding>): (r: Option<seq<int>>)
    ensures r.Some? <==> forall i :: 0 <= i < |args| ==> args[i].Val?
    ensures r.Some? ==> |r.value| == |args| && forall i :: 0 <= i < |args| ==> r.value[i] == args[i].v
  {
    if args == [] then Some([])
    else if args[0].Fn? then None
    else
      match Ints(args[1..])
      case None => None
      case Some(xs) => Some([args[0].v] + xs)
  }

  /** `ps[k]` is the first param whose evaluation fails. */
  ghost predicate FirstFailure(ps: seq<Node>, ctx: Context, k: int)
  {
    && 0 <= k < |ps|
    && Calc(ps[k], ctx).Err?
    && forall i :: 0 <= i < k ==> Calc(ps[i], ctx).Ok?
  }

  /** The params evaluate to `vs` exactly when each param evaluates to the matching element. */
  lemma {:induction false} CalcParamsOk(ps: seq<Node>, ctx: Context, vs: seq<Binding>)
    ensures CalcParams(ps, ctx) == Ok(vs) <==>
            |vs| == |ps| && forall i :: 0 <= i < |ps| ==> Calc(ps[i], ctx) == Ok(vs[i])
  {
    if ps != [] && |vs| > 0 {
      CalcParamsOk(ps[1..], ctx, vs[1..]);
      assert vs == [vs[0]] + vs[1..];
      if |vs| == |ps| {
        assert forall i :: 1 <= i < |ps| ==> ps[1..][i - 1] == ps[i] && vs[1..][i - 1] == vs[i];
      }
    }
  }

  /** When some param fails, the params fail with the error of the first one that does. */
  lemma {:induction false} CalcParamsFirstError(ps: seq<Node>, ctx: Context, k: int)
    requires FirstFailure(ps, ctx, k)
    ensures CalcParams(ps, ctx) == Err(Calc(ps[k], ctx).error)
  {
    if k > 0 {
      assert Calc(ps[0], ctx).Ok?;
      assert FirstFailure(ps[1..], ctx, k - 1) by {
        assert forall i :: 0 <= i < k - 1 ==> ps[1..][i] == ps[i + 1];
      }
      CalcParamsFirstError(ps[1..], ctx, k - 1);
    }
  }

  /** Params evaluation either succeeds on every param or stops at a first failure. */
  lemma {:induction false} CalcParamsOutcome(ps: seq<Node>, ctx: Context)
    ensures CalcParams(ps, ctx).Ok? <==> forall i :: 0 <= i < |ps| ==> Calc(ps[i], ctx).Ok?
    ensures CalcParams(ps, ctx).Err? ==>
            exists k :: FirstFailure(ps, ctx, k) && CalcParams(ps, ctx).error == Calc(ps[k], ctx).error
  {
    if ps != [] {
      CalcParamsOutcome(ps[1..], ctx);
      assert forall i :: 1 <= i < |ps| ==> ps[1..][i - 1] == ps[i];
      if Calc(ps[0], ctx).Err? {
        assert FirstFailure(ps, ctx, 0);
      } else if CalcParams(ps[1..], ctx).Err? {
        var k :| FirstFailure(ps[1..], ctx, k) && CalcParams(ps[1..], ctx).error == Calc(ps[1..][k], ctx).error;
        assert FirstFailure(ps, ctx, k + 1);
      }
    }
  }

  /** A Literal yields its value and never consults the context. */
  lemma CalcLiteral(v: int, ctx: Context)
    ensures Calc(Literal(v), ctx) == Ok(Val(v))
  {
  }

  /** A Variable yields exactly its binding and fails, with no default, when it has none. */
  lemma CalcVariable(x: string, ctx: Context)
    ensures Calc(Variable(x), ctx).Ok? <==> x in ctx
    ensures x in ctx ==> Calc(Variable(x), ctx) == Ok(ctx[x])
    ensures x !in ctx ==> Calc(Variable(x), ctx) == Err(UnboundName(x))
  {
  }

  /**
   * The order of a Function's evaluation: an unbound name fails before any
   * param is evaluated; otherwise the first failing param aborts it;
   * otherwise the bound callable receives the param values in order.
   */
  lemma CalcFunction(name: string, ps: seq<Node>, ctx: Context)
    ensures name !in ctx ==> Calc(Function(name, ps), ctx) == Err(UnboundName(name))
    ensures forall k :: name in ctx && FirstFailure(ps, ctx, k) ==>
              Calc(Function(name, ps), ctx) == Err(Calc(ps[k], ctx).error)
    ensures forall vs: seq<Binding> ::
              name in ctx && |vs| == |ps| && (forall i :: 0 <= i < |ps| ==> Calc(ps[i], ctx) == Ok(vs[i])) ==>
              Calc(Function(name, ps), ctx) == Apply(name, ctx[name], vs)
  {
    forall k | name in ctx && FirstFailure(ps, ctx, k)
      ensures Calc(Function(name, ps), ctx) == Err(Calc(ps[k], ctx).error)
    {
      CalcParamsFirstError(ps, ctx, k);
    }
    forall vs: seq<Binding> |
      name in ctx && |vs| == |ps| && (forall i :: 0 <= i < |ps| ==> Calc(ps[i], ctx) == Ok(vs[i]))
      ensures Calc(Function(name, ps), ctx) == Apply(name, ctx[name], vs)
    {
      CalcParamsOk(ps, ctx, vs);
    }
  }

  /**
   * A Function whose name is bound to a callable and whose params all
   * evaluate to integers returns what the callable returns on them.
   */
  lemma CalcCall(name: string, ps: seq<Node>, ctx: Context, xs: seq<int>)
    requires name in ctx && ctx[name].Fn?
    requires |xs| == |ps| && forall i :: 0 <= i < |ps| ==> Calc(ps[i], ctx) == Ok(Val(xs[i]))
    ensures Calc(Function(name, ps), ctx) ==
              match ctx[name].call(xs)
              case Ok(r) => Ok(Val(r))
              case Err(e) => Err(e)
  {
    var vs := seq(|xs|, i requires 0 <= i < |xs| => Val(xs[i]));
    CalcParamsOk(ps, ctx, vs);
    assert forall i :: 0 <= i < |vs| ==> vs[i].Val?;
    assert Ints(vs).value == xs;
  }

  /** Two contexts that agree on every name in `names`. */
  ghost predicate AgreeOn(c1: Context, c2: Context, names: set<string>)
  {
    forall x :: x in names ==> (x in c1 <==> x in c2) && (x in c1 ==> c1[x] == c2[x])
  }

  /** The result depends only on the bindings of the names the tree mentions. */
  lemma {:induction false} CalcLocal(n: Node, c1: Context, c2: Context)
    requires AgreeOn(c1, c2, Names(n))
    ensures Calc(n, c1) == Calc(n, c2)
  {
    match n
    case Literal(_) =>
    case Variable(_) =>
    case Function(name, ps) =>
      CalcParamsLocal(ps, c1, c2);
  }

  lemma {:induction false} CalcParamsLocal(ps: seq<Node>, c1: Context, c2: Context)
    requires AgreeOn(c1, c2, NamesOf(ps))
    ensures CalcParams(ps, c1) == CalcParams(ps, c2)
  {
    if ps != [] {
      CalcLocal(ps[0], c1, c2);
      CalcParamsLocal(ps[1..], c1, c2);
    }
  }
}
