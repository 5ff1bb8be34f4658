/**
 * The SQL function factory: each builder picks a function name, encodes its
 * arguments as an array of parameters and chooses a return type, and hands
 * back a newly built function or aggregate expression. The only change made
 * after construction (a conjunction and an extra literal argument, in
 * `Extract` and `DateAdd`) is on that new expression, so it is modelled as
 * part of the value built.
 */
module FunctionsBuilder {
  import opened PhpValues

  /** One `add(params, types, prepend)` call made on a built expression. */
  datatype Addition = Addition(params: seq<Entry>, types: seq<Entry>, prepend: bool)

  /**
   * A built function expression. `aggregate` tells an aggregate expression
   * from a plain function; `conjunction` is None while the class default is
   * kept; `additions` lists the `add` calls made after construction, in order.
   */
  datatype FunctionExpr = FunctionExpr(
    aggregate: bool,
    name: string,
    params: seq<Entry>,
    types: seq<Entry>,
    returnType: string,
    conjunction: Option<string>,
    additions: seq<Addition>)

  /** The value a literal marker in a parameter array stands for. */
  const LITERAL: Value := Str("literal")

  /**
   * What an argument entry passes to the SQL function: an entry marked
   * 'literal' passes its key's text, any other entry passes its value.
   */
  function ArgumentOf(e: Entry): Value
  {
    if e.value == LITERAL then Str(KeyText(e.key)) else e.value
  }

  /**
   * The one-argument parameter array: a string becomes the key of a single
   * 'literal' entry, anything else the only element of a list. Either way
   * exactly one entry, and it passes the argument back unchanged.
   */
  function LiteralArgs(expression: Value): (r: seq<Entry>)
    ensures |r| == 1
    ensures ArgumentOf(r[0]) == expression
    ensures r[0].value == LITERAL <==> expression.Str?
    ensures !expression.Str? ==> r[0].key == IntKey(0)
  {
    if expression.Str? then
      KeyTextOfKeyOf(expression.s);
      [Entry(KeyOf(expression.s), LITERAL)]
    else
      [Entry(IntKey(0), expression)]
  }

  /** PHP's `current()` on a fresh array: its first value, or false when it is empty. */
  function Current(types: seq<Entry>): (v: Value)
    ensures |types| == 0 ==> v == Bool(false)
    ensures |types| > 0 ==> v == types[0].value
  {
    if |types| == 0 then Bool(false) else types[0].value
  }

  /**
   * `current($types) ?: 'string'` passed on as a `string` return type under
   * strict typing: a falsy or missing first type gives 'string', a string
   * type is used as given, and any other truthy value is refused.
   */
  function FirstTypeOrString(types: seq<Entry>, callee: string): (r: Result<string>)
    ensures !Truthy(Current(types)) ==> r == Ok("string")
    ensures Truthy(Current(types)) && Current(types).Str? ==> r == Ok(Current(types).s)
    ensures r.Err? <==> Truthy(Current(types)) && !Current(types).Str?
    ensures r.Err? ==> r.error.TypeError?
    ensures r.Ok? ==> r.value != "" && r.value != "0"
  {
    var t := Current(types);
    if !Truthy(t) then Ok("string")
    else if t.Str? then Ok(t.s)
    else Err(TypeError(callee + "(): Argument #4 ($return) must be of type string, " + DebugType(t) + " given"))
  }

  /** `_build`: a plain function expression with exactly the given parts and nothing added. */
  function Build(name: string, params: seq<Entry> := [], types: seq<Entry> := [], returnType: string := "string"): (r: FunctionExpr)
    ensures !r.aggregate && r.name == name && r.returnType == returnType
    ensures r.params == params && r.types == types
    ensures r.conjunction == None && r.additions == []
  {
    FunctionExpr(false, name, params, types, returnType, None, [])
  }

  /** `aggregate`: an aggregate expression with exactly the given parts and nothing added. */
  function Aggregate(name: string, params: seq<Entry> := [], types: seq<Entry> := [], returnType: string := "float"): (r: FunctionExpr)
    ensures r.aggregate && r.name == name && r.returnType == returnType
    ensures r.params == params && r.types == types
    ensures r.conjunction == None && r.additions == []
  {
    FunctionExpr(true, name, params, types, returnType, None, [])
  }

  /** `_literalArgumentFunction`: a plain function of the one argument `expression`. */
  function LiteralArgumentFunction(name: string, expression: Value, types: seq<Entry>, returnType: string): (r: FunctionExpr)
    ensures !r.aggregate && r.name == name && r.types == types && r.returnType == returnType
    ensures |r.params| == 1 && ArgumentOf(r.params[0]) == expression
    ensures r.params == LiteralArgs(expression)
    ensures r.conjunction == None && r.additions == []
  {
    Build(name, LiteralArgs(expression), types, returnType)
  }

  /** `singleLiteralAggregate`: an aggregate of the one argument `expression`. */
  function SingleLiteralAggregate(name: string, expression: Value, types: seq<Entry>, returnType: string): (r: FunctionExpr)
    ensures r.aggregate && r.name == name && r.types == types && r.returnType == returnType
    ensures |r.params| == 1 && ArgumentOf(r.params[0]) == expression
    ensures r.params == LiteralArgs(expression)
    ensures r.conjunction == None && r.additions == []
  {
    Aggregate(name, LiteralArgs(expression), types, returnType)
  }

  /** `RAND()`: no arguments, a float. */
  function Rand(): (r: FunctionExpr)
    ensures !r.aggregate && r.name == "RAND" && r.params == [] && r.types == [] && r.returnType == "float"
    ensures r.conjunction == None && r.additions == []
  {
    Build("RAND", [], [], "float")
  }

  /** `SUM(e)`: an integer exactly when the first type given is 'integer', a float otherwise. */
  function Sum(expression: Value, types: seq<Entry> := []): (r: FunctionExpr)
    ensures r.aggregate && r.name == "SUM" && r.types == types
    ensures |r.params| == 1 && ArgumentOf(r.params[0]) == expression
    ensures r.params == LiteralArgs(expression)
    ensures r.returnType == "integer" <==> |types| > 0 && types[0].value == Str("integer")
    ensures r.returnType == "integer" || r.returnType == "float"
    ensures r.conjunction == None && r.additions == []
  {
    var returnType := if Current(types) == Str("integer") then "integer" else "float";
    SingleLiteralAggregate("SUM", expression, types, returnType)
  }

  /** `AVG(e)`: always a float. */
  function Avg(expression: Value, types: seq<Entry> := []): (r: FunctionExpr)
    ensures r.aggregate && r.name == "AVG" && r.types == types && r.returnType == "float"
    ensures |r.params| == 1 && ArgumentOf(r.params[0]) == expression
    ensures r.params == LiteralArgs(expression)
    ensures r.conjunction == None && r.additions == []
  {
    SingleLiteralAggregate("AVG", expression, types, "float")
  }

  /** `MAX(e)`: typed as its first type, or 'string' when that is missing or falsy. */
  function Max(expression: Value, types: seq<Entry> := []): (r: Result<FunctionExpr>)
    ensures r.Ok? <==> FirstTypeOrString(types, "").Ok?
    ensures r.Err? ==> r.error.TypeError?
    ensures r.Ok? ==> r.value.aggregate && r.value.name == "MAX" && r.value.types == types
    ensures r.Ok? ==> |r.value.params| == 1 && ArgumentOf(r.value.params[0]) == expression
    ensures r.Ok? ==> r.value.params == LiteralArgs(expression)
    ensures r.Ok? ==> r.value.returnType == FirstTypeOrString(types, "").value
    ensures r.Ok? ==> r.value.conjunction == None && r.value.additions == []
  {
    match FirstTypeOrString(types, "FunctionsBuilder::singleLiteralAggregate")
    case Err(e) => Err(e)
    case Ok(returnType) => Ok(SingleLiteralAggregate("MAX", expression, types, returnType))
  }

  /** `MIN(e)`: typed as its first type, or 'string' when that is missing or falsy. */
  function Min(expression: Value, types: seq<Entry> := []): (r: Result<FunctionExpr>)
    ensures r.Ok? <==> FirstTypeOrString(types, "").Ok?
    ensures r.Err? ==> r.error.TypeError?
    ensures r.Ok? ==> r.value.aggregate && r.value.name == "MIN" && r.value.types == types
    ensures r.Ok? ==> |r.value.params| == 1 && ArgumentOf(r.value.params[0]) == expression
    ensures r.Ok? ==> r.value.params == LiteralArgs(expression)
    ensures r.Ok? ==> r.value.returnType == FirstTypeOrString(types, "").value
    ensures r.Ok? ==> r.value.conjunction == None && r.value.additions == []
  {
    match FirstTypeOrString(types, "FunctionsBuilder::singleLiteralAggregate")
    case Err(e) => Err(e)
    case Ok(returnType) => Ok(SingleLiteralAggregate("MIN", expression, types, returnType))
  }

  /** `COUNT(e)`: always an integer. */
  function Count(expression: Value, types: seq<Entry> := []): (r: FunctionExpr)
    ensures r.aggregate && r.name == "COUNT" && r.types == types && r.returnType == "integer"
    ensures |r.params| == 1 && ArgumentOf(r.params[0]) == expression
    ensures r.params == LiteralArgs(expression)
    ensures r.conjunction == None && r.additions == []
  {
    SingleLiteralAggregate("COUNT", expression, types, "integer")
  }

  /** `CONCAT(args)`: the arguments as given, a string. */
  function Concat(args: seq<Entry>, types: seq<Entry> := []): (r: FunctionExpr)
    ensures !r.aggregate && r.name == "CONCAT" && r.params == args && r.types == types && r.returnType == "string"
    ensures r.conjunction == None && r.additions == []
  {
    Build("CONCAT", args, types, "string")
  }

  /** `COALESCE(args)`: typed as its first type, or 'string' when that is missing or falsy. */
  function Coalesce(args: seq<Entry>, types: seq<Entry> := []): (r: Result<FunctionExpr>)
    ensures r.Ok? <==> FirstTypeOrString(types, "").Ok?
    ensures r.Err? ==> r.error.TypeError?
    ensures r.Ok? ==> !r.value.aggregate && r.value.name == "COALESCE" && r.value.params == args && r.value.types == types
    ensures r.Ok? ==> r.value.returnType == FirstTypeOrString(types, "").value
    ensures r.Ok? ==> r.value.conjunction == None && r.value.additions == []
  {
    match FirstTypeOrString(types, "FunctionsBuilder::_build")
    case Err(e) => Err(e)
    case Ok(returnType) => Ok(Build("COALESCE", args, types, returnType))
  }

  /** `DATEDIFF(args)`: the arguments as given, an integer. */
  function DateDiff(args: seq<Entry>, types: seq<Entry> := []): (r: FunctionExpr)
    ensures !r.aggregate && r.name == "DATEDIFF" && r.params == args && r.types == types && r.returnType == "integer"
    ensures r.conjunction == None && r.additions == []
  {
    Build("DATEDIFF", args, types, "integer")
  }

  /**
   * `EXTRACT(part FROM e)`: the expression is the one argument, the part is
   * put in front of it as a literal, and the two are joined by ' FROM'.
   */
  function Extract(part: string, expression: Value, types: seq<Entry> := []): (r: FunctionExpr)
    ensures !r.aggregate && r.name == "EXTRACT" && r.types == types && r.returnType == "integer"
    ensures |r.params| == 1 && ArgumentOf(r.params[0]) == expression
    ensures r.params == LiteralArgs(expression)
    ensures r.conjunction == Some(" FROM")
    ensures |r.additions| == 1 && r.additions[0].prepend && r.additions[0].types == []
    ensures |r.additions[0].params| == 1 && r.additions[0].params[0].value == LITERAL
    ensures ArgumentOf(r.additions[0].params[0]) == Str(part)
    ensures r.additions[0].params == LiteralArgs(Str(part))
  {
    var e := LiteralArgumentFunction("EXTRACT", expression, types, "integer");
    e.(conjunction := Some(" FROM"), additions := e.additions + [Addition(LiteralArgs(Str(part)), [], true)])
  }

  /** `datePart` is another name for `Extract`. */
  function DatePart(part: string, expression: Value, types: seq<Entry> := []): (r: FunctionExpr)
    ensures !r.aggregate && r.name == "EXTRACT" && r.types == types && r.returnType == "integer"
    ensures |r.params| == 1 && ArgumentOf(r.params[0]) == expression
    ensures r.params == LiteralArgs(expression)
    ensures r.conjunction == Some(" FROM")
    ensures |r.additions| == 1 && r.additions[0].prepend && r.additions[0].types == []
    ensures |r.additions[0].params| == 1 && r.additions[0].params[0].value == LITERAL
    ensures ArgumentOf(r.additions[0].params[0]) == Str(part)
    ensures r.additions[0].params == LiteralArgs(Str(part))
    ensures r == Extract(part, expression, types)
  {
    Extract(part, expression, types)
  }

  /** The amount of a `DateAdd` interval: the value itself when it is numeric, '0' otherwise. */
  function Amount(value: Value): (r: string)
    ensures IsNumeric(value) ==> r == StrCast(value).value
    ensures !IsNumeric(value) ==> r == "0"
  {
    if IsNumeric(value) then StrCast(value).value else "0"
  }

  /** The amount is numeric text whenever the value is not a float. */
  lemma AmountIsNumeric(value: Value)
    requires !value.Float?
    ensures IsNumericString(Amount(value))
  {
    match value
    case Int(i) =>
      assert Amount(value) == IntToString(i);
      IntToStringIsNumeric(i);
    case Str(s) =>
      if IsNumericString(s) {
        assert Amount(value) == s;
      } else {
        assert Amount(value) == "0";
        ZeroIsNumeric();
      }
    case Null | Bool(_) | Arr(_) | Stringable(_, _) | Object(_) =>
      assert Amount(value) == "0";
      ZeroIsNumeric();
  }

  /**
   * The interval text of `DateAdd`: the amount (the value itself when it is
   * numeric, '0' otherwise), a space, then the unit.
   */
  function Interval(value: Value, unit: string): (r: string)
    ensures |r| > |unit| && r[|r| - |unit| - 1..] == " " + unit
    ensures IsNumeric(value) ==> r[..|r| - |unit| - 1] == StrCast(value).value
    ensures !IsNumeric(value) ==> r[..|r| - |unit| - 1] == "0"
  {
    var amount := Amount(value);
    var r := amount + " " + unit;
    assert r[..|amount|] == amount;
    r
  }

  /**
   * `DATE_ADD(e, INTERVAL n unit)`: the expression is the one argument, the
   * interval literal is appended to it, joined by ', INTERVAL'; a datetime.
   */
  function DateAdd(expression: Value, value: Value, unit: string, types: seq<Entry> := []): (r: FunctionExpr)
    ensures !r.aggregate && r.name == "DATE_ADD" && r.types == types && r.returnType == "datetime"
    ensures |r.params| == 1 && ArgumentOf(r.params[0]) == expression
    ensures r.params == LiteralArgs(expression)
    ensures r.conjunction == Some(", INTERVAL")
    ensures |r.additions| == 1 && !r.additions[0].prepend && r.additions[0].types == []
    ensures |r.additions[0].params| == 1 && ArgumentOf(r.additions[0].params[0]) == Str(Interval(value, unit))
    ensures r.additions[0].params == LiteralArgs(Str(Interval(value, unit)))
    ensures r.additions[0].params[0].value == LITERAL
  {
    var e := LiteralArgumentFunction("DATE_ADD", expression, types, "datetime");
    e.(conjunction := Some(", INTERVAL"), additions := e.additions + [Addition(LiteralArgs(Str(Interval(value, unit))), [], false)])
  }

  /** `DAYOFWEEK(e)`: the one argument, an integer. */
  function DayOfWeek(expression: Value, types: seq<Entry> := []): (r: FunctionExpr)
    ensures !r.aggregate && r.name == "DAYOFWEEK" && r.types == types && r.returnType == "integer"
    ensures |r.params| == 1 && ArgumentOf(r.params[0]) == expression
    ensures r.params == LiteralArgs(expression)
    ensures r.conjunction == None && r.additions == []
  {
    LiteralArgumentFunction("DAYOFWEEK", expression, types, "integer")
  }

  /** `weekday` is another name for `DayOfWeek`: it too builds `DAYOFWEEK`. */
  function Weekday(expression: Value, types: seq<Entry> := []): (r: FunctionExpr)
    ensures !r.aggregate && r.name == "DAYOFWEEK" && r.types == types && r.returnType == "integer"
    ensures |r.params| == 1 && ArgumentOf(r.params[0]) == expression
    ensures r.params == LiteralArgs(expression)
    ensures r.conjunction == None && r.additions == []
    ensures r == DayOfWeek(expression, types)
  {
    DayOfWeek(expression, types)
  }

  /**
   * The current date and/or time: 'datetime' gives `NOW()`, 'date' gives
   * `CURRENT_DATE()`, 'time' gives `CURRENT_TIME()`, each typed as the kind
   * asked for; any other kind is refused.
   */
  function Now(kind: string := "datetime"): (r: Result<FunctionExpr>)
    ensures r.Ok? <==> kind == "datetime" || kind == "date" || kind == "time"
    ensures r.Ok? ==> !r.value.aggregate && r.value.returnType == kind && r.value.params == [] && r.value.types == []
    ensures kind == "datetime" ==> r.Ok? && r.value.name == "NOW"
    ensures kind == "date" ==> r.Ok? && r.value.name == "CURRENT_DATE"
    ensures kind == "time" ==> r.Ok? && r.value.name == "CURRENT_TIME"
    ensures r.Err? ==> r.error == InvalidArgument("Invalid argument for FunctionsBuilder::now(): " + kind)
    ensures r.Ok? ==> r.value.conjunction == None && r.value.additions == []
  {
    if kind == "datetime" then Ok(Build("NOW", [], [], "string").(returnType := "datetime"))
    else if kind == "date" then Ok(Build("CURRENT_DATE", [], [], "string").(returnType := "date"))
    else if kind == "time" then Ok(Build("CURRENT_TIME", [], [], "string").(returnType := "time"))
    else Err(InvalidArgument("Invalid argument for FunctionsBuilder::now(): " + kind))
  }

  /** A truthy string first type is used as given by `max`, `min` and `coalesce`. */
  lemma FirstTypeDecidesReturnType(expression: Value, args: seq<Entry>, types: seq<Entry>, t: string)
    requires |types| > 0 && types[0].value == Str(t) && t != "" && t != "0"
    ensures Max(expression, types) == Ok(SingleLiteralAggregate("MAX", expression, types, t))
    ensures Min(expression, types) == Ok(SingleLiteralAggregate("MIN", expression, types, t))
    ensures Coalesce(args, types) == Ok(Build("COALESCE", args, types, t))
  {
  }

  /** With no types at all, `max`, `min` and `coalesce` are typed 'string' and `sum` 'float'. */
  lemma DefaultReturnTypes(expression: Value, args: seq<Entry>)
    ensures Max(expression, []).Ok? && Max(expression, []).value.returnType == "string"
    ensures Min(expression, []).Ok? && Min(expression, []).value.returnType == "string"
    ensures Coalesce(args, []).Ok? && Coalesce(args, []).value.returnType == "string"
    ensures Sum(expression, []).returnType == "float"
  {
  }
}
