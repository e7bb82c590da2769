/** The lisp-like prefix rendering of a node (`to_lisp_code` in pyxp/pyxp.py). */
module PyxpRender {
  import opened Results
  import opened Tree
  import opened Strings

  /**
   * `n.to_lisp_code()`: a Literal as `str(value)`, a Variable as its bare
   * name, a Function as `(name p1 p2 ...)` with one space after the name
   * even when there are no params.
   */
  function ToLispCode(n: Node): string
  {
    match n
    case Literal(v) => IntToString(v)
    case Variable(x) => x
    case Function(name, ps) => "(" + name + " " + Join(" ", CodeOf(ps)) + ")"
  }

  /** `[p.to_lisp_code() for p in self.params]`. */
  function CodeOf(ps: seq<Node>): (r: seq<string>)
    ensures |r| == |ps|
  {
    if ps == [] then [] else [ToLispCode(ps[0])] + CodeOf(ps[1..])
  }

  /** A zero-argument call keeps the space after its name. */
  lemma RenderZeroArgs(name: string)
    ensures ToLispCode(Function(name, [])) == "(" + name + " )"
  {
  }

  /** A Literal renders as the decimal digits of its value, which read back as that value. */
  lemma RenderLiteral(v: int)
    ensures ParseInt(ToLispCode(Literal(v))) == Some(v)
  {
    IntToStringRoundTrip(v);
  }

  /**
   * When no name holds a parenthesis, a rendering holds exactly one
   * opening and one closing parenthesis per Function node.
   */
  lemma {:induction false} RenderParens(n: Node, c: char)
    requires c == '(' || c == ')'
    requires PlainNames(n)
    ensures Count(ToLispCode(n), c) == FunctionCount(n)
  {
    match n
    case Literal(v) =>
      var s := IntToString(v);
      assert c !in s by {
        if v < 0 {
          assert s == "-" + NatToString(-v);
        }
      }
      CountAbsent(s, c);
    case Variable(x) =>
      CountAbsent(x, c);
    case Function(name, ps) =>
      var inner := Join(" ", CodeOf(ps));
      CountConcat("(" + name + " " + inner, ")", c);
      CountConcat("(" + name + " ", inner, c);
      CountConcat("(" + name, " ", c);
      CountConcat("(", name, c);
      CountAbsent(name, c);
      CountJoin(" ", CodeOf(ps), c);
      RenderParensOf(ps, c);
  }

  lemma {:induction false} RenderParensOf(ps: seq<Node>, c: char)
    requires c == '(' || c == ')'
    requires forall i :: 0 <= i < |ps| ==> PlainNames(ps[i])
    ensures CountAll(CodeOf(ps), c) == FunctionCountOf(ps)
  {
    if ps != [] {
      RenderParens(ps[0], c);
      RenderParensOf(ps[1..], c);
      assert CodeOf(ps)[1..] == CodeOf(ps[1..]);
    }
  }
}
