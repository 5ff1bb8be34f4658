/**
 * The value binder an expression writes its parameters into while it is
 * compiled: a counter that numbers placeholders and the list of bindings
 * made so far.
 */
module ValueBinding {
  import opened PhpValues

  /** One bound parameter: placeholder name, value and logical type name. */
  datatype Binding = Binding(placeholder: string, value: Value, typeName: string)

  /** The placeholder the binder issues for `token` when its counter stands at `n`. */
  function PlaceholderName(token: string, n: nat): string
  {
    ":" + token + NatToString(n)
  }

  /** Placeholders issued for one token at different counter values never collide. */
  lemma PlaceholdersDistinct(token: string, m: nat, n: nat)
    requires m != n
    ensures PlaceholderName(token, m) != PlaceholderName(token, n)
  {
    if PlaceholderName(token, m) == PlaceholderName(token, n) {
      var k := |token| + 1;
      assert PlaceholderName(token, m)[k..] == NatToString(m);
      assert PlaceholderName(token, n)[k..] == NatToString(n);
      NatToStringInjective(m, n);
    }
  }

  class ValueBinder {
    var bindingsCount: nat
    var bindings: seq<Binding>

    constructor ()
      ensures bindingsCount == 0 && bindings == []
    {
      bindingsCount := 0;
      bindings := [];
    }

    /** Issues the next placeholder for `token` and advances the counter. */
    method Placeholder(token: string) returns (p: string)
      modifies this
      ensures p == PlaceholderName(token, old(bindingsCount))
      ensures bindingsCount == old(bindingsCount) + 1
      ensures bindings == old(bindings)
    {
      p := PlaceholderName(token, bindingsCount);
      bindingsCount := bindingsCount + 1;
    }

    /** Records one binding. */
    method Bind(param: string, value: Value, typeName: string)
      modifies this
      ensures bindings == old(bindings) + [Binding(param, value, typeName)]
      ensures bindingsCount == old(bindingsCount)
    {
      bindings := bindings + [Binding(param, value, typeName)];
    }
  }
}
