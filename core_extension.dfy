/** The built-in tests (`empty`, `null`, `even`, `odd`, `iterable`) and the
    `default` filter of the core extension. Each receives the argument list
    the engine passes (the tested or filtered value first) and either answers
    or raises the Java exception its code would raise. */
module CoreExtension {
  import opened Values

  /** What "empty" means: null, a blank string, or a collection or map with
      no elements. Every other value, the integer 0 included, is not empty. */
  predicate IsEmptyValue(v: Value) {
    match v
    case Null => true
    case Str(s) => IsBlank(s)
    case Collection(items) => |items| == 0
    case Map(entries) => |entries| == 0
    case _ => false
  }

  /** The `empty` test, as written: a flag set by null, then overwritten by
      the string, collection and map checks while it is still false. */
  function EmptyTest(args: seq<Value>): (r: Result<bool>)
    ensures r.Err? <==> |args| == 0
    ensures r.Err? ==> r.error == IndexOutOfBounds
    ensures r.Ok? ==> (r.value <==> IsEmptyValue(args[0]))
  {
    if |args| == 0 then Err(IndexOutOfBounds)
    else
      var obj := args[0];
      var isEmpty := obj == Null;
      var isEmpty := if !isEmpty && obj.Str? then IsBlank(obj.s) else isEmpty;
      var isEmpty := if !isEmpty && obj.Collection? then |obj.items| == 0 else isEmpty;
      var isEmpty := if !isEmpty && obj.Map? then |obj.entries| == 0 else isEmpty;
      Ok(isEmpty)
  }

  /** The `null` test: whether the first argument is null. */
  function NullTest(args: seq<Value>): (r: Result<bool>)
    ensures r.Err? <==> |args| == 0
    ensures r.Err? ==> r.error == IndexOutOfBounds
    ensures r.Ok? ==> (r.value <==> args[0].Null?)
    // whatever passes `null` also passes `empty`
    ensures r == Ok(true) ==> EmptyTest(args) == Ok(true)
  {
    if |args| == 0 then Err(IndexOutOfBounds) else Ok(args[0] == Null)
  }

  /** The `even` test: casts the first argument to `Integer` (a cast of any
      other non-null object fails) and unboxes it (null fails), then compares
      Java's remainder by 2 with 0. */
  function EvenTest(args: seq<Value>): (r: Result<bool>)
    ensures r.Ok? <==> |args| > 0 && args[0].Int?
    ensures r.Ok? ==> (r.value <==> args[0].n % 2 == 0)
    ensures r == Err(IndexOutOfBounds) <==> |args| == 0
    ensures r == Err(NullPointer) <==> |args| > 0 && args[0].Null?
    ensures r == Err(ClassCast) <==> |args| > 0 && !args[0].Int? && !args[0].Null?
  {
    if |args| == 0 then Err(IndexOutOfBounds)
    else match args[0]
      case Null => Err(NullPointer)
      case Int(n) => Ok(JavaRemTwo(n) == 0)
      case _ => Err(ClassCast)
  }

  /** The `odd` test: the negation of `even` on the same arguments, failing
      exactly where `even` fails and with the same exception. */
  function OddTest(args: seq<Value>): (r: Result<bool>)
    ensures r.Err? <==> EvenTest(args).Err?
    ensures r.Err? ==> r.error == EvenTest(args).error
    ensures r.Ok? ==> r.value == !EvenTest(args).value
    ensures r.Ok? ==> (r.value <==> args[0].n % 2 == 1)
  {
    match EvenTest(args)
    case Ok(even) => Ok(even == false)
    case Err(e) => Err(e)
  }

  /** The `iterable` test: `instanceof Iterable`, which holds for every Java
      collection, fails for null, strings, integers and maps (a `Map` is not
      an `Iterable`), and holds for any other object that implements it. */
  function IterableTest(args: seq<Value>): (r: Result<bool>)
    ensures r.Err? <==> |args| == 0
    ensures r.Err? ==> r.error == IndexOutOfBounds
    ensures r.Ok? && args[0].Collection? ==> r.value
    ensures r.Ok? && (args[0].Null? || args[0].Str? || args[0].Int? || args[0].Map?) ==> !r.value
    ensures r.Ok? && args[0].Other? ==> r.value == args[0].iterable
  {
    if |args| == 0 then Err(IndexOutOfBounds)
    else Ok(args[0].Collection? || (args[0].Other? && args[0].iterable))
  }

  /** The `default` filter: the first argument unless it is empty, in which
      case the second. Both are fetched from the list before the test, so
      fewer than two arguments fail; further arguments are ignored. */
  function DefaultFilter(args: seq<Value>): (r: Result<Value>)
    ensures r.Err? <==> |args| < 2
    ensures r.Err? ==> r.error == IndexOutOfBounds
    ensures r.Ok? ==> (r.value == args[1] <== IsEmptyValue(args[0]))
    ensures r.Ok? ==> (r.value == args[0] <== !IsEmptyValue(args[0]))
  {
    if |args| < 2 then Err(IndexOutOfBounds)
    else
      var obj := args[0];
      var defaultObj := args[1];
      if EmptyTest(args) == Ok(true) then Ok(defaultObj) else Ok(obj)
  }

  /** A blank string, whitespace only or "", is empty; an integer, zero
      included, never is; a string with a non-whitespace character is not. */
  lemma BlankIsEmptyZeroIsNot(s: string, n: Int32)
    ensures EmptyTest([Str(s)]) == Ok(true) <==> IsBlank(s)
    ensures EmptyTest([Str("")]) == Ok(true)
    ensures EmptyTest([Str(" \t\n")]) == Ok(true)
    ensures EmptyTest([Int(n)]) == Ok(false)
    ensures EmptyTest([Int(0)]) == Ok(false)
  {
    assert IsBlank(" \t\n") by {
      forall i | 0 <= i < |" \t\n"| ensures IsJavaWhitespace(" \t\n"[i]) { }
    }
  }

  /** Applying `default` again with the same fallback changes nothing. */
  lemma DefaultIdempotent(x: Value, d: Value)
    ensures DefaultFilter([x, d]).Ok?
    ensures DefaultFilter([DefaultFilter([x, d]).value, d]) == DefaultFilter([x, d])
  {
  }

  /** `default` returns its fallback exactly when the value is empty, and
      otherwise returns the value itself, unchanged. */
  lemma DefaultSelects(x: Value, d: Value)
    requires x != d
    ensures DefaultFilter([x, d]) == Ok(d) <==> EmptyTest([x]) == Ok(true)
    ensures DefaultFilter([x, d]) == Ok(x) <==> EmptyTest([x]) == Ok(false)
  {
  }

  /** The three renderings of `name|default('x')`: a missing or null name
      and an empty string give 'x'; "bob" gives "bob". */
  lemma DefaultScenarios()
    ensures DefaultFilter([Null, Str("x")]) == Ok(Str("x"))
    ensures DefaultFilter([Str(""), Str("x")]) == Ok(Str("x"))
    ensures DefaultFilter([Str("bob"), Str("x")]) == Ok(Str("bob"))
  {
    assert !IsJavaWhitespace("bob"[0]);
  }

  /** A negative odd number has Java remainder -1, not 1: it is odd and not
      even, and a check written as `n % 2 == 1` in Java would miss it. */
  lemma NegativeOddIsOdd(n: Int32)
    requires n < 0 && n % 2 == 1
    ensures JavaRemTwo(n) == -1
    ensures EvenTest([Int(n)]) == Ok(false)
    ensures OddTest([Int(n)]) == Ok(true)
  {
  }
}
