/** The expressions of tests/exps.py, built with the builder and evaluated. */
module PyxpExamples {
  import opened Results
  import opened Tree
  import opened PyxpContext
  import opened PyxpEval
  import opened PyxpBuilder

  function Sum(xs: seq<int>): int
  {
    if xs == [] then 0 else xs[0] + Sum(xs[1..])
  }

  /** `lambda x: x * 2`. */
  function Double(args: seq<int>): Result<int, EvalError>
  {
    if |args| != 1 then Err(ArityOrType) else Ok(args[0] * 2)
  }

  /** `lambda x, y: x + y`. */
  function AddTwo(args: seq<int>): Result<int, EvalError>
  {
    if |args| != 2 then Err(ArityOrType) else Ok(args[0] + args[1])
  }

  /** `lambda *args: sum(args)`. */
  function MySum(args: seq<int>): Result<int, EvalError>
  {
    Ok(Sum(args))
  }

  /** `context(a=10, b=2)`. */
  function OperatorsContext(): Context
  {
    Merged(map[], map["a" := Val(10), "b" := Val(2)])
  }

  /** `context(a=10, b=2, double=..., add=..., my_sum=...)`. */
  function FunctionsContext(): Context
  {
    Merged(map[], map["a" := Val(10), "b" := Val(2), "double" := Fn(Double), "add" := Fn(AddTwo), "my_sum" := Fn(MySum)])
  }

  /** Every default operator is still bound as in the default table when only variables and functions are added. */
  lemma DefaultsKept(o: Operator)
    ensures o.Symbol() in OperatorsContext() && OperatorsContext()[o.Symbol()] == DefaultContext[o.Symbol()]
    ensures o.Symbol() in FunctionsContext() && FunctionsContext()[o.Symbol()] == DefaultContext[o.Symbol()]
  {
    DefaultTable(o);
  }

  /** What tests/exps.py expects of `a <op> b` with a = 10 and b = 2 (it does not test `-`). */
  function ExpectedOnAB(o: Operator): int
  {
    match o
    case Add => 12
    case Sub => 8
    case Mul => 20
    case Div => 5
    case Pow => 100
    case LShift => 40
    case RShift => 2
  }

  /** Each default operator on a = 10 and b = 2 gives the value the tests expect. */
  lemma BasicOperators(o: Operator)
    ensures Calc(BinaryOp(o, Named("a"), Placeholder(Named("b"))).value, OperatorsContext()) == Ok(Val(ExpectedOnAB(o)))
  {
    var ctx, a, b := OperatorsContext(), Named("a"), Named("b");
    assert Calc(a.value, ctx) == Ok(Val(10)) && Calc(b.value, ctx) == Ok(Val(2));
    DefaultsKept(o);
    BinaryOpEvaluation(o, a, Placeholder(b), ctx, 10, 2);
    OperatorsOnAB(o);
  }

  /** Python's result of each operator on 10 and 2. */
  lemma OperatorsOnAB(o: Operator)
    ensures IntOp(o, 10, 2) == Ok(ExpectedOnAB(o))
  {
    match o
    case Pow => assert Power(10, 2) == 100;
    case LShift => assert Power(2, 2) == 4;
    case RShift => assert Power(2, 2) == 4;
    case _ =>
  }

  /** `val(2) + a` and `a + 2` are both 12. */
  lemma LiteralOnEitherSide()
    ensures Calc(BinaryOp(Add, LiteralFactor(2), Placeholder(Named("a"))).value, OperatorsContext()) == Ok(Val(12))
    ensures Calc(BinaryOp(Add, Named("a"), Scalar(2)).value, OperatorsContext()) == Ok(Val(12))
  {
    var ctx, a := OperatorsContext(), Named("a");
    assert Calc(a.value, ctx) == Ok(Val(10));
    DefaultsKept(Add);
    BinaryOpEvaluation(Add, a, Scalar(2), ctx, 10, 2);
    AddSugarSymmetric(a, 2, ctx);
  }

  /** `double(a + b) + add(a, b)`. */
  function DoublePlusAdd(): Factor
  {
    var a, b := Named("a"), Named("b");
    var doubled := Call(Named("double"), [Placeholder(BinaryOp(Add, a, Placeholder(b)))]).value;
    var added := Call(Named("add"), [Placeholder(a), Placeholder(b)]).value;
    BinaryOp(Add, doubled, Placeholder(added))
  }

  /** `my_sum(a, b)`. */
  function SumAB(): Factor
  {
    Call(Named("my_sum"), [Placeholder(Named("a")), Placeholder(Named("b"))]).value
  }

  lemma VariablesAB()
    ensures Calc(Named("a").value, FunctionsContext()) == Ok(Val(10))
    ensures Calc(Named("b").value, FunctionsContext()) == Ok(Val(2))
  {
  }

  lemma SumABValue()
    ensures Calc(SumAB().value, FunctionsContext()) == Ok(Val(12))
  {
    VariablesAB();
    CallEvaluation(Named("my_sum"), [Placeholder(Named("a")), Placeholder(Named("b"))], FunctionsContext(), [10, 2]);
  }

  lemma DoubledValue()
    ensures Calc(Call(Named("double"), [Placeholder(BinaryOp(Add, Named("a"), Placeholder(Named("b"))))]).value.value,
                 FunctionsContext()) == Ok(Val(24))
  {
    var ctx := FunctionsContext();
    VariablesAB();
    DefaultsKept(Add);
    BinaryOpEvaluation(Add, Named("a"), Placeholder(Named("b")), ctx, 10, 2);
    CallEvaluation(Named("double"), [Placeholder(BinaryOp(Add, Named("a"), Placeholder(Named("b"))))], ctx, [12]);
  }

  lemma AddedValue()
    ensures Calc(Call(Named("add"), [Placeholder(Named("a")), Placeholder(Named("b"))]).value.value,
                 FunctionsContext()) == Ok(Val(12))
  {
    VariablesAB();
    CallEvaluation(Named("add"), [Placeholder(Named("a")), Placeholder(Named("b"))], FunctionsContext(), [10, 2]);
  }

  lemma DoublePlusAddValue()
    ensures Calc(DoublePlusAdd().value, FunctionsContext()) == Ok(Val(36))
  {
    var a, b := Named("a"), Named("b");
    var doubled := Call(Named("double"), [Placeholder(BinaryOp(Add, a, Placeholder(b)))]).value;
    var added := Call(Named("add"), [Placeholder(a), Placeholder(b)]).value;
    DoubledValue();
    AddedValue();
    DefaultsKept(Add);
    BinaryOpEvaluation(Add, doubled, Placeholder(added), FunctionsContext(), 24, 12);
  }

  /** tests/exps.py's first expression: `double(a + b) + add(a, b) - my_sum(a, b) * 2` is 12. */
  lemma BasicUseCase()
    ensures Calc(BinaryOp(Sub, DoublePlusAdd(), Placeholder(BinaryOp(Mul, SumAB(), Scalar(2)))).value,
                 FunctionsContext()) == Ok(Val(12))
  {
    var ctx := FunctionsContext();
    DoublePlusAddValue();
    SumABValue();
    DefaultsKept(Mul);
    DefaultsKept(Sub);
    BinaryOpEvaluation(Mul, SumAB(), Scalar(2), ctx, 12, 2);
    BinaryOpEvaluation(Sub, DoublePlusAdd(), Placeholder(BinaryOp(Mul, SumAB(), Scalar(2))), ctx, 36, 24);
  }

  /** `double(a + b) + add(a, b) - my_sum(a, b)` is 24. */
  lemma ComplexDifference()
    ensures Calc(BinaryOp(Sub, DoublePlusAdd(), Placeholder(SumAB())).value, FunctionsContext()) == Ok(Val(24))
  {
    DoublePlusAddValue();
    SumABValue();
    DefaultsKept(Sub);
    BinaryOpEvaluation(Sub, DoublePlusAdd(), Placeholder(SumAB()), FunctionsContext(), 36, 12);
  }

  /** The arguments `1, 2, 3, 4, a - b, my_sum(a, b)`. */
  function VariadicArgs(): seq<Arg>
  {
    [Scalar(1), Scalar(2), Scalar(3), Scalar(4),
     Placeholder(BinaryOp(Sub, Named("a"), Placeholder(Named("b")))), Placeholder(SumAB())]
  }

  /** The values of the variadic arguments: 1, 2, 3, 4, then `a - b` = 8, then `my_sum(a, b)` = 12. */
  lemma VariadicArgsValues()
    ensures |VariadicArgs()| == 6
    ensures forall i :: 0 <= i < 6 ==> Calc(ToNode(VariadicArgs()[i]), FunctionsContext()) == Ok(Val([1, 2, 3, 4, 8, 12][i]))
  {
    var ctx, args, xs := FunctionsContext(), VariadicArgs(), [1, 2, 3, 4, 8, 12];
    DifferenceValue();
    SumABValue();
    forall i | 0 <= i < 4
      ensures Calc(ToNode(args[i]), ctx) == Ok(Val(xs[i]))
    {
      assert args[i] == Scalar(xs[i]);
    }
  }

  /** `a - b` is 8. */
  lemma DifferenceValue()
    ensures Calc(BinaryOp(Sub, Named("a"), Placeholder(Named("b"))).value, FunctionsContext()) == Ok(Val(8))
  {
    VariablesAB();
    DefaultsKept(Sub);
    BinaryOpEvaluation(Sub, Named("a"), Placeholder(Named("b")), FunctionsContext(), 10, 2);
  }

  /** `my_sum(1, 2, 3, 4, a - b, my_sum(a, b))` is 30. */
  lemma ComplexVariadic()
    ensures Calc(Call(Named("my_sum"), VariadicArgs()).value.value, FunctionsContext()) == Ok(Val(30))
  {
    var xs := [1, 2, 3, 4, 8, 12];
    VariadicArgsValues();
    assert Sum(xs) == 30;
    CallEvaluation(Named("my_sum"), VariadicArgs(), FunctionsContext(), xs);
  }
}
