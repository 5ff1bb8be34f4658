/**
 * The integer column type: converts application values to database integers
 * and back, casts result rows in batch, and coerces request data.
 */
module IntegerType {
  import opened PhpValues

  /** PDO's binding type for integers (`PDO::PARAM_INT`). */
  const PARAM_INT: int := 1

  predicate IsScalar(v: Value)
  {
    v.Bool? || v.Int? || v.Float? || v.Str?
  }

  /**
   * Null and the empty string become SQL NULL; any other scalar becomes its
   * integer cast; arrays and objects are refused.
   */
  function ToDatabase(value: Value): (r: Result<Value>)
    ensures value == Null || value == Str("") ==> r == Ok(Null)
    ensures r.Err? <==> !IsScalar(value) && value != Null
    ensures r.Err? ==> r.error.InvalidArgument?
    ensures r.Ok? && value != Null && value != Str("") ==> r.value == Int(IntCast(value))
  {
    if value == Null || value == Str("") then Ok(Null)
    else if !IsScalar(value) then
      Err(InvalidArgument("Cannot convert value of type `" + DebugType(value) + "` to integer"))
    else Ok(Int(IntCast(value)))
  }

  /** Null stays null; every other value becomes its integer cast. */
  function ToPHP(value: Value): (r: Value)
    ensures r == Null <==> value == Null
    ensures r != Null ==> r == Int(IntCast(value))
  {
    if value == Null then Null else Int(IntCast(value))
  }

  /** The entry for `k` once the fields in `seen` have been cast. */
  function CastEntry(values: map<ArrayKey, Value>, seen: seq<ArrayKey>, k: ArrayKey): Value
    requires k in values
  {
    if k in seen then ToPHP(values[k]) else values[k]
  }

  /**
   * Casts, in place, the listed fields of a result row that are set and not
   * null; every other entry is left as it is.
   */
  method ManyToPHP(values: map<ArrayKey, Value>, fields: seq<ArrayKey>) returns (r: map<ArrayKey, Value>)
    ensures r.Keys == values.Keys
    ensures forall k :: k in values ==> r[k] == if k in fields then ToPHP(values[k]) else values[k]
  {
    r := values;
    var i := 0;
    while i < |fields|
      invariant 0 <= i <= |fields|
      invariant r.Keys == values.Keys
      invariant forall k :: k in values ==> r[k] == CastEntry(values, fields[..i], k)
    {
      var field := fields[i];
      ghost var seen := fields[..i];
      ghost var next := fields[..i + 1];
      assert next == seen + [field];
      ghost var before := r;
      if field in r && r[field] != Null {
        r := r[field := Int(IntCast(r[field]))];
      }
      forall k | k in values ensures r[k] == CastEntry(values, next, k) {
        assert before[k] == CastEntry(values, seen, k);
      }
      i := i + 1;
    }
    assert fields[..i] == fields;
  }

  /** Integers are always bound as `PDO::PARAM_INT`, whatever the value. */
  function ToStatement(value: Value): (r: int)
    ensures r == PARAM_INT
  {
    PARAM_INT
  }

  /**
   * Coerces request data: null and '' give null, numeric and all-digit values
   * their integer cast, any array the integer 1, anything else null.
   */
  function Marshal(value: Value): (r: Value)
    ensures r == Null || r.Int?
    ensures value == Null || value == Str("") ==> r == Null
    ensures value != Str("") && (IsNumeric(value) || CtypeDigit(value)) ==> r == Int(IntCast(value))
    ensures value.Arr? ==> r == Int(1)
  {
    if value == Null || value == Str("") then Null
    else if IsNumeric(value) || CtypeDigit(value) then Int(IntCast(value))
    else if value.Arr? then Int(1)
    else Null
  }

  /**
   * The `ctype_digit` test in `Marshal` never decides anything: without it the
   * result is the same for every input.
   */
  lemma MarshalIgnoresCtypeDigit(value: Value)
    ensures Marshal(value) ==
            if value == Null || value == Str("") then Null
            else if IsNumeric(value) then Int(IntCast(value))
            else if value.Arr? then Int(1)
            else Null
  {
    CtypeDigitImpliesNumeric(value);
  }

  /** Marshal gives null exactly for null, '', and values neither numeric nor arrays. */
  lemma MarshalNullCases(value: Value)
    ensures Marshal(value) == Null <==> value == Null || value == Str("") || (!IsNumeric(value) && !value.Arr?)
  {
    CtypeDigitImpliesNumeric(value);
  }

  /**
   * An integer survives the trip to the database and back, including the
   * usual case where the driver hands the column back as decimal text.
   */
  lemma RoundTrip(i: int)
    ensures ToDatabase(Int(i)) == Ok(Int(i))
    ensures ToPHP(Int(i)) == Int(i)
    ensures ToPHP(Str(IntToString(i))) == Int(i)
  {
    var s := IntToString(i);
    StringToIntOfIntToString(i);
    assert IntCast(Str(s)) == i;
  }
}
