/** Small vocabulary shared by every module: optional values, the three
    states a JavaScript object field can be in, and the string tests the
    TypeScript code relies on (truthiness, `startsWith`). */
module Base {

  /** The prefix that marks a generated (non-durable) guest user id. */
  const GuestPrefix: string := "guest-"

  /** A value that may be missing (`null` or `undefined` in the source). */
  datatype Option<+T> = None | Some(value: T) {
    function GetOr(default: T): T {
      match this
      case Some(v) => v
      case None => default
    }
  }

  /** A field of a JavaScript object: not present, explicitly `null`, or a value.
      `JSON.stringify` drops fields whose value is `undefined`, so an
      `undefined` field and an absent one are the same `Absent`. */
  datatype Field<+T> = Absent | Null | Value(value: T) {
    /** The `??` operator: the value, or the default for `null`/`undefined`. */
    function OrElse(default: T): T {
      match this
      case Value(v) => v
      case _ => default
    }
  }

  /** JavaScript truthiness of an optional string: `null`, `undefined`
      and the empty string are falsy. */
  predicate Truthy(s: Option<string>) {
    s.Some? && s.value != ""
  }

  /** Whether `s` begins with `p`, as JavaScript's `startsWith` decides it. */
  predicate StartsWith(s: string, p: string) {
    |p| <= |s| && s[..|p|] == p
  }

  /** The `||` operator on strings: the left side if truthy, else the right. */
  function OrString(s: Option<string>, fallback: string): (r: string)
    ensures Truthy(s) ==> r == s.value
    ensures !Truthy(s) ==> r == fallback
  {
    if Truthy(s) then s.value else fallback
  }

  /** With a non-empty fallback, `a || b` is always truthy, and applying the
      same fallback again changes nothing: a caller that defaults a name
      never ends up with an empty one. */
  lemma OrStringNeverFalsy(s: Option<string>, fallback: string)
    requires fallback != ""
    ensures Truthy(Some(OrString(s, fallback)))
    ensures OrString(Some(OrString(s, fallback)), fallback) == OrString(s, fallback)
    ensures OrString(s, fallback) == fallback || Some(OrString(s, fallback)) == s
  {
  }

  /** Prefixing with a fixed string is injective. */
  lemma PrefixInjective(p: string, a: string, b: string)
    requires p + a == p + b
    ensures a == b
  {
    assert a == (p + a)[|p|..];
    assert b == (p + b)[|p|..];
  }

  /** A string built as `p + x` starts with `p`. */
  lemma PrefixStartsWith(p: string, x: string)
    ensures StartsWith(p + x, p)
  {
    assert (p + x)[..|p|] == p;
  }
}
