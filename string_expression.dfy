/**
 * A string literal rendered with an explicit collation:
 * `<placeholder> COLLATE <collation>`, the string itself travelling as a
 * bound parameter of type 'string'.
 */
module Expression {
  import opened PhpValues
  import opened ValueBinding

  /** The token the expression asks the binder to number its placeholder with. */
  const PLACEHOLDER_TOKEN: string := "c"

  class StringExpression {
    const text: string
    var collation: string

    constructor (text: string, collation: string)
      ensures this.text == text && this.collation == collation
    {
      this.text := text;
      this.collation := collation;
    }

    /** Replaces the collation; the string is left as it is. */
    method SetCollation(collation: string)
      modifies this
      ensures this.collation == collation
    {
      this.collation := collation;
    }

    /** The collation given to the constructor or to the latest `SetCollation`. */
    function GetCollation(): (c: string)
      reads this
      ensures c == collation
    {
      collation
    }

    /**
     * Binds the string under a newly numbered placeholder (one binding, type
     * 'string') and renders that placeholder followed by the collation.
     */
    method Sql(binder: ValueBinder) returns (sql: string)
      modifies binder
      ensures binder.bindingsCount == old(binder.bindingsCount) + 1
      ensures binder.bindings ==
              old(binder.bindings) + [Binding(PlaceholderName(PLACEHOLDER_TOKEN, old(binder.bindingsCount)), Str(text), "string")]
      ensures sql == PlaceholderName(PLACEHOLDER_TOKEN, old(binder.bindingsCount)) + " COLLATE " + collation
    {
      var placeholder := binder.Placeholder(PLACEHOLDER_TOKEN);
      binder.Bind(placeholder, Str(text), "string");
      sql := placeholder + " COLLATE " + collation;
    }

    /** The expression has no children: traversal hands back the expression itself. */
    function Traverse<C>(callback: C): (r: StringExpression)
      ensures r == this
    {
      this
    }
  }
}
