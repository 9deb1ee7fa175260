/** Runtime values of the template engine and the Java behaviour the built-in
    tests depend on: the exceptions a cast, an unboxing or a list access can
    raise, Java's truncating remainder, and the whitespace rule behind
    "blank" strings. */
module Values {

  /** The range of a Java `int` (and so of a boxed `Integer`). */
  type Int32 = x: int | -0x8000_0000 <= x < 0x8000_0000

  /** A runtime value as the built-in tests and filters see it: the Java
      object they receive, classified by the `instanceof` checks they make.
      `Other` stands for every other Java object; it records only whether
      that object implements `Iterable` (a `Boolean`, a `Long` or a `Date`
      does not; a user-defined iterable type does). */
  datatype Value =
    | Null
    | Int(n: Int32)
    | Str(s: string)
    | Collection(items: seq<Value>)
    | Map(entries: map<Value, Value>)
    | Other(iterable: bool)

  /** The Java exceptions a built-in can raise, and the failure of an
      expression's evaluation (a `PebbleException`). */
  datatype Error =
    | IndexOutOfBounds
    | ClassCast
    | NullPointer
    | PebbleError(message: string)

  datatype Result<T> = Ok(value: T) | Err(error: Error)

  datatype Option<T> = None | Some(value: T)

  /** Java's `a % 2` (the only remainder the built-ins take): division
      rounds toward zero, so the remainder takes the sign of `a` and is -1
      for a negative odd `a`. Dafny's own `%` is Euclidean and never negative. */
  function JavaRemTwo(a: int): (r: int)
    ensures a == 2 * (if a >= 0 then a / 2 else -((-a) / 2)) + r
    ensures a >= 0 ==> 0 <= r <= 1
    ensures a < 0 ==> -1 <= r <= 0
    ensures r == 0 <==> a % 2 == 0
  {
    if a >= 0 then a % 2 else -((-a) % 2)
  }

  /** `Character.isWhitespace`: the Unicode space, line and paragraph
      separators except the non-breaking ones (U+00A0, U+2007, U+202F),
      plus the controls U+0009..U+000D and U+001C..U+001F. */
  predicate IsJavaWhitespace(c: char) {
    || ('\t' <= c <= '\r')
    || ('\U{1C}' <= c <= ' ')
    || c == '\U{1680}'
    || ('\U{2000}' <= c <= '\U{2006}')
    || ('\U{2008}' <= c <= '\U{200A}')
    || c == '\U{2028}'
    || c == '\U{2029}'
    || c == '\U{205F}'
    || c == '\U{3000}'
  }

  /** `StringUtils.isBlank` on a non-null string: empty, or whitespace only. */
  predicate IsBlank(s: string) {
    forall i :: 0 <= i < |s| ==> IsJavaWhitespace(s[i])
  }
}
