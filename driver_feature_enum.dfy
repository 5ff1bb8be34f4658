/**
 * The closed set of optional capabilities a database driver may report, each
 * backed by a fixed string.
 */
module DriverFeatureEnum {
  import opened PhpValues

  datatype DriverFeature =
    | Cte
    | DisableConstraintWithoutTransaction
    | Json
    | PdoQuote
    | Savepoint
    | TruncateWithConstraints
    | Window

  /** Every case, in declaration order (what `cases()` lists). */
  const Cases: seq<DriverFeature> :=
    [Cte, DisableConstraintWithoutTransaction, Json, PdoQuote, Savepoint, TruncateWithConstraints, Window]

  /** The backing string of a case. The disable-constraint spelling is the enum's own. */
  function BackingValue(f: DriverFeature): string
  {
    match f
    case Cte => "cte"
    case DisableConstraintWithoutTransaction => "disble-constarint-without-transaction"
    case Json => "json"
    case PdoQuote => "pdo-quote"
    case Savepoint => "savepoint"
    case TruncateWithConstraints => "truncate-with-constraints"
    case Window => "window"
  }

  /** `from()`: the case backed by `s`, or a ValueError when no case is. */
  function From(s: string): (r: Result<DriverFeature>)
    ensures r.Ok? ==> BackingValue(r.value) == s
    ensures r.Err? ==> forall f :: BackingValue(f) != s
    ensures r.Err? ==> r.error.ValueError?
  {
    if s == "cte" then Ok(Cte)
    else if s == "disble-constarint-without-transaction" then Ok(DisableConstraintWithoutTransaction)
    else if s == "json" then Ok(Json)
    else if s == "pdo-quote" then Ok(PdoQuote)
    else if s == "savepoint" then Ok(Savepoint)
    else if s == "truncate-with-constraints" then Ok(TruncateWithConstraints)
    else if s == "window" then Ok(Window)
    else Err(ValueError("\"" + s + "\" is not a valid backing value for enum DriverFeatureEnum"))
  }

  /** There are exactly seven cases, each listed once. */
  lemma CasesAreComplete()
    ensures |Cases| == 7
    ensures forall f :: f in Cases
    ensures forall i, j :: 0 <= i < j < |Cases| ==> Cases[i] != Cases[j]
  {
    forall f ensures f in Cases {
      match f
      case Cte => assert Cases[0] == f;
      case DisableConstraintWithoutTransaction => assert Cases[1] == f;
      case Json => assert Cases[2] == f;
      case PdoQuote => assert Cases[3] == f;
      case Savepoint => assert Cases[4] == f;
      case TruncateWithConstraints => assert Cases[5] == f;
      case Window => assert Cases[6] == f;
    }
  }

  /** Backing strings are pairwise distinct. */
  lemma BackingValueInjective(f: DriverFeature, g: DriverFeature)
    ensures BackingValue(f) == BackingValue(g) ==> f == g
  {
  }

  /** `from` inverts `value` on every case. */
  lemma FromBackingValue(f: DriverFeature)
    ensures From(BackingValue(f)) == Ok(f)
  {
  }
}
