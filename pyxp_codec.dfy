/**
 * Conversion between a node and its structured, JSON-compatible form
 * (`to_dict`, the per-class `from_dict` and the module-level `from_dict`
 * dispatching through `types` in pyxp/pyxp.py).
 */
module PyxpCodec {
  import opened Results
  import opened Tree
  import PyxpRender

  /** `n.to_dict()`: a mapping tagged by `type` with the class's own fields. */
  function ToDict(n: Node): Json
  {
    match n
    case Literal(v) => JObject(map["type" := JStr("Literal"), "value" := JInt(v)])
    case Variable(x) => JObject(map["type" := JStr("Variable"), "var_name" := JStr(x)])
    case Function(name, ps) =>
      JObject(map["type" := JStr("Function"), "func_name" := JStr(name), "params" := JArray(ToDicts(ps))])
  }

  /** `[p.to_dict() for p in self.params]`. */
  function ToDicts(ps: seq<Node>): (r: seq<Json>)
    ensures |r| == |ps|
  {
    if ps == [] then [] else [ToDict(ps[0])] + ToDicts(ps[1..])
  }

  /** Reading field `key` of `d`, as `d[key]` does. */
  function Field(d: Json, key: string): Result<Json, DecodeError>
  {
    if !d.JObject? then Err(NotAnObject)
    else if key !in d.fields then Err(MissingField(key))
    else Ok(d.fields[key])
  }

  /**
   * The module-level `from_dict(d)`: look up `d['type']` in the `types`
   * table, then let that class read its own fields. Fields other than the
   * ones the class reads are ignored.
   */
  function FromDict(d: Json): Result<Node, DecodeError>
  {
    match Field(d, "type")
    case Err(e) => Err(e)
    case Ok(tag) =>
      if tag == JStr("Literal") then
        match Field(d, "value")
        case Err(e) => Err(e)
        case Ok(JInt(v)) => Ok(Literal(v))
        case Ok(_) => Err(Malformed("value"))
      else if tag == JStr("Variable") then
        match Field(d, "var_name")
        case Err(e) => Err(e)
        case Ok(JStr(x)) => Ok(Variable(x))
        case Ok(_) => Err(Malformed("var_name"))
      else if tag == JStr("Function") then
        match Field(d, "func_name")
        case Err(e) => Err(e)
        case Ok(name) =>
          match Field(d, "params")
          case Err(e) => Err(e)
          case Ok(p) =>
            match FromParams(p)
            case Err(e) => Err(e)
            case Ok(ps) =>
              if name.JStr? then Ok(Function(name.s, ps)) else Err(Malformed("func_name"))
      else Err(UnknownNodeType(tag))
  }

  /**
   * `[from_dict(p) for p in d['params']]`. Iterating a mapping yields its
   * keys and iterating a string its characters; neither can be subscripted
   * by `'type'`, so only the empty ones get through, as an empty list.
   */
  function FromParams(p: Json): Result<seq<Node>, DecodeError>
  {
    match p
    case JArray(items) => FromDicts(items)
    case JObject(m) => if m == map[] then Ok([]) else Err(NotAnObject)
    case JStr(s) => if s == "" then Ok([]) else Err(NotAnObject)
    case _ => Err(NotIterable("params"))
  }

  function FromDicts(items: seq<Json>): (r: Result<seq<Node>, DecodeError>)
    ensures r.Ok? ==> |r.value| == |items|
  {
    if items == [] then Ok([])
    else
      match FromDict(items[0])
      case Err(e) => Err(e)
      case Ok(n) =>
        match FromDicts(items[1..])
        case Err(e) => Err(e)
        case Ok(ns) => Ok([n] + ns)
  }

  /** Decoding an encoded tree gives back the same tree: variant, names, values and param order. */
  lemma {:induction false} RoundTrip(n: Node)
    ensures FromDict(ToDict(n)) == Ok(n)
  {
    match n
    case Literal(_) =>
    case Variable(_) =>
    case Function(name, ps) =>
      RoundTripOf(ps);
  }

  lemma {:induction false} RoundTripOf(ps: seq<Node>)
    ensures FromDicts(ToDicts(ps)) == Ok(ps)
  {
    if ps != [] {
      RoundTrip(ps[0]);
      RoundTripOf(ps[1..]);
      var ds := ToDicts(ps);
      assert ds[0] == ToDict(ps[0]) && ds[1..] == ToDicts(ps[1..]);
      assert ps == [ps[0]] + ps[1..];
    }
  }

  /** Two trees with the same structured form are the same tree. */
  lemma ToDictInjective(a: Node, b: Node)
    ensures ToDict(a) == ToDict(b) ==> a == b
  {
    RoundTrip(a);
    RoundTrip(b);
  }

  /** Serialising and deserialising leaves the rendering unchanged. */
  lemma RenderSurvivesRoundTrip(n: Node)
    ensures FromDict(ToDict(n)).Ok?
    ensures PyxpRender.ToLispCode(FromDict(ToDict(n)).value) == PyxpRender.ToLispCode(n)
  {
    RoundTrip(n);
  }

  /**
   * Decoding fails on a `type` tag outside the three classes, and on a
   * missing field that the tagged class reads.
   */
  lemma DecodeFailures(fields: map<string, Json>)
    ensures "type" !in fields ==> FromDict(JObject(fields)) == Err(MissingField("type"))
    ensures "type" in fields && fields["type"] !in {JStr("Literal"), JStr("Variable"), JStr("Function")} ==>
              FromDict(JObject(fields)) == Err(UnknownNodeType(fields["type"]))
    ensures "type" in fields && fields["type"] == JStr("Literal") && "value" !in fields ==>
              FromDict(JObject(fields)) == Err(MissingField("value"))
    ensures "type" in fields && fields["type"] == JStr("Variable") && "var_name" !in fields ==>
              FromDict(JObject(fields)) == Err(MissingField("var_name"))
    ensures "type" in fields && fields["type"] == JStr("Function") && "func_name" !in fields ==>
              FromDict(JObject(fields)) == Err(MissingField("func_name"))
    ensures "type" in fields && fields["type"] == JStr("Function") && "func_name" in fields && "params" !in fields ==>
              FromDict(JObject(fields)) == Err(MissingField("params"))
  {
  }

  /**
   * The first param that fails to decode fails the whole list with its own
   * error: no partial tree comes back and no error is replaced.
   */
  lemma {:induction false} DecodeParamFailure(items: seq<Json>, k: int)
    requires 0 <= k < |items| && FromDict(items[k]).Err?
    requires forall i :: 0 <= i < k ==> FromDict(items[i]).Ok?
    ensures FromDicts(items) == Err(FromDict(items[k]).error)
  {
    if k > 0 {
      assert FromDict(items[0]).Ok?;
      assert forall i :: 0 <= i < k - 1 ==> items[1..][i] == items[i + 1];
      DecodeParamFailure(items[1..], k - 1);
    }
  }

  /** A Function whose params hold a failing node fails with that node's error. */
  lemma DecodeFunctionParamFailure(name: string, items: seq<Json>, k: int)
    requires 0 <= k < |items| && FromDict(items[k]).Err?
    requires forall i :: 0 <= i < k ==> FromDict(items[i]).Ok?
    ensures FromDict(JObject(map["type" := JStr("Function"), "func_name" := JStr(name), "params" := JArray(items)])) ==
            Err(FromDict(items[k]).error)
  {
    DecodeParamFailure(items, k);
  }
}
