/**
 * The two pieces of PHP semantics the controllers lean on when they read a
 * request parameter, a configuration value or a model attribute.
 */
module Php {
  import opened Wrappers

  /** A request parameter, configuration value or string attribute: null or a string. */
  type Field = Option<string>

  /** PHP's `empty()` on a string-or-null: true of null, "" and "0". */
  predicate Empty(f: Field)
    ensures !Empty(f) ==> f.Some? && |f.value| > 0
    ensures f == Some("0") ==> Empty(f)
  {
    f.None? || f.value == "" || f.value == "0"
  }

  /** PHP's `$f ?? $default`: only null falls back, an empty string is kept. */
  function Coalesce(f: Field, default: string): (r: string)
    ensures f.None? ==> r == default
    ensures f.Some? ==> r == f.value
  {
    f.GetOr(default)
  }

  /**
   * `??` and `empty()` disagree on the strings `empty()` calls empty: `??`
   * keeps "" and "0", so a value that passed `??` may still be empty.
   */
  lemma CoalesceKeepsEmptyStrings(default: string)
    ensures Empty(Some("")) && Coalesce(Some(""), default) == ""
    ensures Empty(Some("0")) && Coalesce(Some("0"), default) == "0"
    ensures forall f: Field :: !Empty(f) ==> Coalesce(f, default) == f.value && Coalesce(f, default) != ""
  {
  }
}
