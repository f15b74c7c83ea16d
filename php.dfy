/**
 * The small part of PHP's value semantics that the binding relies on:
 * conversion to boolean (what `!$x` and `if ($x)` use) and the strict
 * comparison operator `===`.
 */
module Php {
  import opened Wrappers

  /** The PHP values that occur in the binding's guards. */
  datatype Value = Null | Bool(b: bool) | Str(s: string)

  /** PHP's conversion to boolean: `null`, `false`, `""` and `"0"` are falsy. */
  predicate ToBool(v: Value)
    ensures ToBool(v) <==> v == Bool(true) || (v.Str? && v.s != "" && v.s != "0")
  {
    match v
    case Null => false
    case Bool(b) => b
    case Str(s) => s != "" && s != "0"
  }

  /** `$a === $b`: identical type and identical value. */
  predicate StrictEquals(a: Value, b: Value)
    ensures StrictEquals(a, b) <==> a == b
  {
    match (a, b)
    case (Null, Null) => true
    case (Bool(x), Bool(y)) => x == y
    case (Str(x), Str(y)) => x == y
    case _ => false
  }

  /** A request parameter or accessor result that is either a string or `null`. */
  function FromOption(o: Option<string>): (v: Value)
    ensures v.Null? <==> o.None?
    ensures o.Some? ==> v == Str(o.value)
  {
    match o
    case None => Null
    case Some(s) => Str(s)
  }

  /** Whether an optional string passes a PHP truthiness test such as `if ($x)`. */
  predicate Truthy(o: Option<string>)
    ensures Truthy(o) <==> o.Some? && o.value != "" && o.value != "0"
  {
    ToBool(FromOption(o))
  }

  /** A boolean is never strictly equal to a string, whatever the two hold. */
  lemma BoolNeverStrictlyEqualsString(b: bool, s: string)
    ensures !StrictEquals(Bool(b), Str(s))
  {
  }

  /** On two strings `===` is exactly string equality. */
  lemma StrictEqualsOnStrings(x: string, y: string)
    ensures StrictEquals(Str(x), Str(y)) <==> x == y
  {
  }
}
