/**
 * The data shared by both versions of the library: the expression tree,
 * the evaluation context, the JSON-like structured value a tree is
 * serialised to, and the builder's placeholder.
 */
module Tree {
  import opened Results

  /** An expression node: one of the three node classes of the library. */
  datatype Node =
    | Literal(value: int)
    | Variable(varName: string)
    | Function(funcName: string, params: seq<Node>)

  /** The exceptions evaluation can raise. */
  datatype EvalError =
    | UnboundName(name: string)   // KeyError: a Variable or Function name absent from the context
    | NotCallable(name: string)   // TypeError: a Function name bound to a plain value
    | ArityOrType                 // TypeError raised by a callable on the arguments it was given
    | ZeroDivision                // ZeroDivisionError from integer division
    | NegativeShiftCount          // ValueError from << or >> with a negative count
    | NegativeExponent            // ** with a negative exponent, whose float result is outside the model

  /** What a name is bound to in a context: a plain value or a callable over values. */
  datatype Binding =
    | Val(v: int)
    | Fn(call: seq<int> -> Result<int, EvalError>)

  /** The evaluation context: names (variables, functions and operator symbols) to bindings. */
  type Context = map<string, Binding>

  /** A JSON-compatible structured value, as produced by `to_dict` and read by `from_dict`. */
  datatype Json =
    | JNull
    | JBool(b: bool)
    | JInt(i: int)
    | JStr(s: string)
    | JArray(items: seq<Json>)
    | JObject(fields: map<string, Json>)

  /** The exceptions decoding a structured value can raise. */
  datatype DecodeError =
    | NotAnObject                 // TypeError: a value that is not a mapping was subscripted
    | MissingField(key: string)   // KeyError: a field the node's class reads is absent
    | UnknownNodeType(tag: Json)  // KeyError, or TypeError for an unhashable tag: the `type` tag is not a key of the `types` table
    | NotIterable(key: string)    // TypeError: `params` is not a list, mapping or string
    | Malformed(key: string)      // a field of a shape the model's nodes cannot hold

  /** The builder's placeholder: a name (None for literals and, in one version, operator results) and a node. */
  datatype Factor = Factor(name: Option<string>, value: Node)

  /** An argument handed to the builder: another placeholder or a raw scalar. */
  datatype Arg = Placeholder(factor: Factor) | Scalar(v: int)

  /** Every name evaluating `n` may look up in a context. */
  ghost function Names(n: Node): set<string>
  {
    match n
    case Literal(_) => {}
    case Variable(x) => {x}
    case Function(name, ps) => {name} + NamesOf(ps)
  }

  ghost function NamesOf(ps: seq<Node>): set<string>
  {
    if ps == [] then {} else Names(ps[0]) + NamesOf(ps[1..])
  }

  /** The number of Function nodes in a tree. */
  function FunctionCount(n: Node): nat
  {
    match n
    case Literal(_) => 0
    case Variable(_) => 0
    case Function(_, ps) => 1 + FunctionCountOf(ps)
  }

  function FunctionCountOf(ps: seq<Node>): nat
  {
    if ps == [] then 0 else FunctionCount(ps[0]) + FunctionCountOf(ps[1..])
  }

  /** No Variable or Function name in the tree contains a parenthesis. */
  ghost predicate PlainNames(n: Node)
  {
    match n
    case Literal(_) => true
    case Variable(x) => '(' !in x && ')' !in x
    case Function(name, ps) => '(' !in name && ')' !in name && forall i :: 0 <= i < |ps| ==> PlainNames(ps[i])
  }
}
