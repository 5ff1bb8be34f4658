/**
 * The decimal column type. Decimals travel as strings end to end so that no
 * precision is lost to floating point; request data can optionally be read
 * with a locale-aware number parser.
 */
module DecimalType {
  import opened PhpValues

  /** PDO's binding type for strings (`PDO::PARAM_STR`). */
  const PARAM_STR: int := 2

  /**
   * Null and '' become SQL NULL; numeric values pass unchanged; an object whose
   * string form is numeric gives that string; anything else is refused.
   */
  function ToDatabase(value: Value): (r: Result<Value>)
    ensures value == Null || value == Str("") ==> r == Ok(Null)
    ensures IsNumeric(value) ==> r == Ok(value)
    ensures value.Stringable? && IsNumericString(value.text) ==> r == Ok(Str(value.text))
    ensures r.Ok? ==> r.value == Null || IsNumeric(r.value)
    ensures r.Err? <==>
            !(value == Null || value == Str("") || IsNumeric(value) ||
              (value.Stringable? && IsNumericString(value.text)))
    ensures r.Err? ==> r.error.InvalidArgument?
  {
    if value == Null || value == Str("") then Ok(Null)
    else if IsNumeric(value) then Ok(value)
    else if value.Stringable? && IsNumericString(value.text) then Ok(Str(value.text))
    else Err(InvalidArgument("Cannot convert value of type `" + DebugType(value) + "` to a decimal"))
  }

  /** Null stays null; every other value becomes its string form. */
  function ToPHP(value: Value): (r: Result<Value>)
    ensures r.Err? <==> value.Object?
    ensures r.Ok? ==> (r.value == Null <==> value == Null)
    ensures r.Ok? && value != Null ==> r.value == Str(StrCast(value).value)
  {
    if value == Null then Ok(Null)
    else
      match StrCast(value)
      case Ok(s) => Ok(Str(s))
      case Err(e) => Err(e)
  }

  /** Whether a listed field of the row holds an object without a string form. */
  predicate Uncastable(values: map<ArrayKey, Value>, fields: seq<ArrayKey>, k: ArrayKey)
  {
    k in fields && k in values && values[k].Object?
  }

  /**
   * Whether `fields[j]` is the first listed field, in list order, that is set
   * and holds an object without a string form.
   */
  predicate FirstUncastable(values: map<ArrayKey, Value>, fields: seq<ArrayKey>, j: int)
  {
    0 <= j < |fields| && fields[j] in values && values[fields[j]].Object? &&
    forall i :: 0 <= i < j ==> !(fields[i] in values && values[fields[i]].Object?)
  }

  /**
   * Casts, in place, the listed fields of a result row that are set and not
   * null to strings; every other entry is left as it is. An object without a
   * string form raises the cast's Error.
   */
  method ManyToPHP(values: map<ArrayKey, Value>, fields: seq<ArrayKey>) returns (r: Result<map<ArrayKey, Value>>)
    ensures r.Err? <==> exists k :: Uncastable(values, fields, k)
    ensures r.Err? ==> exists k :: Uncastable(values, fields, k) && r.error == ToPHP(values[k]).error
    ensures r.Err? ==> exists j :: FirstUncastable(values, fields, j) && r.error == ToPHP(values[fields[j]]).error
    ensures r.Ok? ==> r.value.Keys == values.Keys
    ensures r.Ok? ==> forall k :: k in values ==>
              r.value[k] == if k in fields && !values[k].Object? then ToPHP(values[k]).value else values[k]
  {
    var row := values;
    var i := 0;
    while i < |fields|
      invariant 0 <= i <= |fields|
      invariant row.Keys == values.Keys
      invariant forall k :: !Uncastable(values, fields[..i], k)
      invariant forall k :: k in values ==>
                  row[k] == if k in fields[..i] && !values[k].Object? then ToPHP(values[k]).value else values[k]
    {
      var field := fields[i];
      assert fields[..i + 1] == fields[..i] + [field];
      if field in row && row[field] != Null {
        match StrCast(row[field])
        case Err(e) =>
          assert Uncastable(values, fields, field);
          forall j | 0 <= j < i ensures !(fields[j] in values && values[fields[j]].Object?) {
            assert !Uncastable(values, fields[..i], fields[j]);
          }
          assert FirstUncastable(values, fields, i);
          return Err(e);
        case Ok(s) =>
          row := row[field := Str(s)];
      }
      assert field in values ==> !values[field].Object?;
      ghost var seen := fields[..i + 1];
      forall k ensures !Uncastable(values, seen, k) {
        assert !Uncastable(values, fields[..i], k);
      }
      i := i + 1;
    }
    assert fields[..i] == fields;
    r := Ok(row);
  }

  /** Decimals are always bound as `PDO::PARAM_STR`, whatever the value. */
  function ToStatement(value: Value): (r: int)
    ensures r == PARAM_STR
  {
    PARAM_STR
  }

  /**
   * The request-data pattern `/^[0-9,. ]+$/`: one or more digits, commas,
   * points or spaces. PCRE's `$` also matches before a final newline, so one
   * trailing "\n" is accepted too.
   */
  predicate MatchesDecimalPattern(s: string)
  {
    var body := if |s| > 0 && s[|s| - 1] == '\n' then s[..|s| - 1] else s;
    |body| > 0 && forall i :: 0 <= i < |body| ==> IsDigit(body[i]) || body[i] in ",. "
  }

  /** How `is_subclass_of` places the configured number class relative to `Number`. */
  datatype ClassRelation = IsNumber | SubclassOfNumber | Unrelated

  /**
   * The configured number class: its name, where it sits relative to `Number`,
   * and its locale parser composed with the string cast of the float it returns.
   */
  datatype NumberClass = NumberClass(name: string, relation: ClassRelation, parseFloat: string -> string)

  class DecimalType {
    var useLocaleParser: bool
    const numberClass: NumberClass

    constructor (numberClass: NumberClass)
      ensures !useLocaleParser
      ensures this.numberClass.name == numberClass.name && this.numberClass.relation == numberClass.relation
      ensures this.numberClass.parseFloat == numberClass.parseFloat
    {
      useLocaleParser := false;
      this.numberClass := numberClass;
    }

    /**
     * Switches locale-aware parsing. Switching off always succeeds; switching
     * on needs the number class to be `Number` or a subclass, otherwise a
     * DatabaseError is raised and the setting is kept.
     */
    method UseLocaleParser(enable: bool := true) returns (r: Result<()>)
      modifies this
      ensures !enable ==> r.Ok? && !useLocaleParser
      ensures enable && numberClass.relation != Unrelated ==> r.Ok? && useLocaleParser
      ensures enable && numberClass.relation == Unrelated ==>
                r == Err(DatabaseError("Cannot use locale parsing with the " + numberClass.name + " class")) &&
                useLocaleParser == old(useLocaleParser)
    {
      if !enable {
        useLocaleParser := enable;
        return Ok(());
      }
      if numberClass.relation == IsNumber || numberClass.relation == SubclassOfNumber {
        useLocaleParser := enable;
        return Ok(());
      }
      return Err(DatabaseError("Cannot use locale parsing with the " + numberClass.name + " class"));
    }

    /**
     * Coerces request data into a decimal string: null and '' give null; with
     * the locale parser on, every other string goes to the parser; otherwise a
     * numeric value gives its string form, a string of digits, commas, points
     * and spaces is kept as is, and anything else gives null.
     */
    function Marshal(value: Value): (r: Value)
      reads this
      ensures r == Null || r.Str?
      ensures value == Null || value == Str("") ==> r == Null
      ensures useLocaleParser && value.Str? && value.s != "" ==> r == Str(numberClass.parseFloat(value.s))
      ensures !(useLocaleParser && value.Str?) && IsNumeric(value) ==> r == Str(StrCast(value).value)
      ensures !(value.Str? && useLocaleParser) && !IsNumeric(value) ==>
                r == if value.Str? && MatchesDecimalPattern(value.s) then value else Null
    {
      if value == Null || value == Str("") then Null
      else if value.Str? && useLocaleParser then Str(numberClass.parseFloat(value.s))
      else if IsNumeric(value) then Str(StrCast(value).value)
      else if value.Str? && MatchesDecimalPattern(value.s) then value
      else Null
    }
  }

  /**
   * Without the locale parser a string is never rewritten: it is kept exactly
   * when it is numeric or matches the pattern, and dropped otherwise.
   */
  lemma MarshalKeepsStrings(d: DecimalType, s: string)
    requires !d.useLocaleParser
    ensures d.Marshal(Str(s)) == Str(s) || d.Marshal(Str(s)) == Null
    ensures d.Marshal(Str(s)) == Str(s) <==> s != "" && (IsNumericString(s) || MatchesDecimalPattern(s))
  {
  }

  /** With the locale parser on, every non-empty string goes to the parser, numeric or not. */
  lemma MarshalRoutesStringsToParser(d: DecimalType, s: string)
    requires d.useLocaleParser && s != ""
    ensures d.Marshal(Str(s)) == Str(d.numberClass.parseFloat(s))
  {
  }

  /**
   * What `ToDatabase` accepts, the database hands back as text and `ToPHP`
   * returns: a numeric string comes back unchanged.
   */
  lemma RoundTrip(s: string)
    requires IsNumericString(s)
    ensures ToDatabase(Str(s)) == Ok(Str(s))
    ensures ToPHP(Str(s)) == Ok(Str(s))
  {
  }

  /**
   * An integer or numeric string marshalled without the locale parser is
   * accepted by `ToDatabase` unchanged.
   */
  lemma MarshalledNumbersAreStorable(d: DecimalType, value: Value)
    requires !d.useLocaleParser && IsNumeric(value) && !value.Float?
    ensures d.Marshal(value).Str? && ToDatabase(d.Marshal(value)) == Ok(d.Marshal(value))
  {
    if value.Int? {
      IntToStringIsNumeric(value.i);
    }
  }
}
