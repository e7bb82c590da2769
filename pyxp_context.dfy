/**
 * The default operator table and context construction (`DEFAULT_CONTEXT`
 * and `context()` in pyxp/pyxp.py), with Python's integer semantics for
 * each operator written out.
 */
module PyxpContext {
  import opened Results
  import opened Tree

  /** The seven operators of the default table. */
  datatype Operator = Add | Sub | Mul | Div | Pow | LShift | RShift
  {
    /** The key the default table binds the operator under; the builder names its node by it too. */
    function Symbol(): string
    {
      match this
      case Add => "+"
      case Sub => "-"
      case Mul => "*"
      case Div => "/"
      case Pow => "**"
      case LShift => "<<"
      case RShift => ">>"
    }
  }

  /** `a ** n` for a non-negative exponent. */
  function Power(a: int, n: nat): (r: int)
    ensures a > 0 ==> r > 0
  {
    if n == 0 then 1 else a * Power(a, n - 1)
  }

  /** Python's integer division, which rounds toward negative infinity. */
  function FloorDiv(a: int, b: int): int
    requires b != 0
  {
    if b > 0 then a / b else (-a) / (-b)
  }

  /** `operator.add`, `sub`, `mul`, `div`, `pow`, `lshift`, `rshift` on two Python ints. */
  function IntOp(o: Operator, a: int, b: int): Result<int, EvalError>
  {
    match o
    case Add => Ok(a + b)
    case Sub => Ok(a - b)
    case Mul => Ok(a * b)
    case Div => if b == 0 then Err(ZeroDivision) else Ok(FloorDiv(a, b))
    case Pow => if b < 0 then Err(NegativeExponent) else Ok(Power(a, b))
    case LShift => if b < 0 then Err(NegativeShiftCount) else Ok(a * Power(2, b))
    case RShift => if b < 0 then Err(NegativeShiftCount) else Ok(FloorDiv(a, Power(2, b)))
  }

  /** The operator as a callable: exactly two arguments, else a TypeError. */
  function OperatorFn(o: Operator): seq<int> -> Result<int, EvalError>
  {
    (args: seq<int>) => if |args| != 2 then Err(ArityOrType) else IntOp(o, args[0], args[1])
  }

  /** `DEFAULT_CONTEXT`. */
  const DefaultContext: Context :=
    map[
      "+" := Fn(OperatorFn(Add)),
      "-" := Fn(OperatorFn(Sub)),
      "*" := Fn(OperatorFn(Mul)),
      "/" := Fn(OperatorFn(Div)),
      "**" := Fn(OperatorFn(Pow)),
      "<<" := Fn(OperatorFn(LShift)),
      ">>" := Fn(OperatorFn(RShift))
    ]

  /**
   * The context `context(d, **kw)` returns: every default binding, then
   * `d`'s, then `kw`'s, each later one replacing an earlier one of the
   * same name. A missing `d` is the empty map.
   */
  function Merged(d: Context, kw: Context): (r: Context)
    ensures r.Keys == DefaultContext.Keys + d.Keys + kw.Keys
    ensures forall k :: k in kw ==> r[k] == kw[k]
    ensures forall k :: k in d && k !in kw ==> r[k] == d[k]
    ensures forall k :: k in DefaultContext && k !in d && k !in kw ==> r[k] == DefaultContext[k]
  {
    DefaultContext + d + kw
  }

  /** `context(d, **kw)`: copy the default table, then update it with `d`, then with `kw`. */
  method MakeContext(d: Context, kw: Context) returns (r: Context)
    ensures r == Merged(d, kw)
  {
    r := DefaultContext;
    if |d| > 0 {
      r := r + d;
    } else {
      UpdateWithEmpty(r, d);
    }
    if |kw| > 0 {
      r := r + kw;
    } else {
      UpdateWithEmpty(r, kw);
    }
  }

  /** Updating a map with an empty one leaves it as it was. */
  lemma UpdateWithEmpty(m: Context, e: Context)
    requires |e| == 0
    ensures m + e == m
  {
    assert e == map[];
  }

  /** The default table binds exactly the seven operator symbols, each to its own operator. */
  lemma DefaultTable(o: Operator)
    ensures DefaultContext.Keys == {"+", "-", "*", "/", "**", "<<", ">>"}
    ensures o.Symbol() in DefaultContext && DefaultContext[o.Symbol()] == Fn(OperatorFn(o))
  {
  }

  /** Python's integer division: the quotient is the floor of the exact one. */
  lemma FloorDivIsFloor(a: int, b: int)
    requires b != 0
    ensures b > 0 ==> FloorDiv(a, b) * b <= a < FloorDiv(a, b) * b + b
    ensures b < 0 ==> FloorDiv(a, b) * b >= a > FloorDiv(a, b) * b + b
  {
    if b < 0 {
      var q, r := (-a) / (-b), (-a) % (-b);
      assert -a == (-b) * q + r && 0 <= r < -b;
      assert q * b == a + r;
    }
  }

  lemma {:induction false} MulBounds(p: int, k: int)
    requires p > 0
    ensures k >= 1 ==> p * k >= p
    ensures k <= -1 ==> p * k <= -p
    decreases if k < 0 then -k else k
  {
    if k > 1 {
      MulBounds(p, k - 1);
      assert p * k == p * (k - 1) + p;
    } else if k < -1 {
      MulBounds(p, k + 1);
      assert p * k == p * (k + 1) - p;
    }
  }

  lemma MulDivCancel(a: int, p: int)
    requires p > 0
    ensures (a * p) / p == a
  {
    var q, r := (a * p) / p, (a * p) % p;
    assert a * p == p * q + r && 0 <= r < p;
    assert p * (a - q) == r;
    MulBounds(p, a - q);
  }

  /** Shifting left and then right by the same count gives back the number. */
  lemma ShiftRoundTrip(a: int, b: int)
    requires b >= 0
    ensures IntOp(LShift, a, b).Ok?
    ensures IntOp(RShift, IntOp(LShift, a, b).value, b) == Ok(a)
  {
    MulDivCancel(a, Power(2, b));
  }
}
