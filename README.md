# Pebble core extension and two AST nodes, in Dafny

This project models three parts of the Pebble template engine.

- **The built-in tests and the `default` filter** (module `CoreExtension`, over the values of module `Values`). `empty`, `null`, `even`, `odd` and `iterable` are total functions. The same goes for `default`. Each takes the argument list the engine passes, with the tested value first. Each returns `Ok(answer)` or the Java exception its code would raise:
  - `IndexOutOfBounds` when the list is too short;
  - `ClassCast` when `even`/`odd` get something other than an `Integer`;
  - `NullPointer` when they get null, which is unboxed.

  A runtime value is `Null | Int | Str | Collection | Map | Other`. `Other` records whether that object implements `Iterable`.
- **The registry tables** of the core extension (module `Registry`):
  - binary operators, each with its symbol, precedence, node class and associativity;
  - the filter and test names, each with the body it is bound to;
  - the statement (tag) parsers.

  Each `Get...` method builds its list by successive appends, as the extension does. It is proved equal to a constant table, and lemmas about those constants state what the tables promise. The seven tag parsers registered here include no parser for `set`.
- **Two AST nodes** (modules `Expressions` and `Nodes`):
  - `BinaryExpression` is a class with two mutable child fields, setters, and getters that read only.
  - `SetNode` is a class with `const` name and value. Its `Render` evaluates the value once and puts the result into an `EvaluationContext` class that holds one map. A failure is returned before anything is bound. The `Writer` is not touched.

  Evaluation is abstract. An `Evaluator` holds a fixed `meaning` function from an expression and the current bindings to a result, which may be an error. It also keeps a ghost trace of the evaluations made.

Java's `%` truncates toward zero. `Values.JavaRemTwo` writes this out, and it is what `even` uses. Java's `int` range is `Values.Int32`.

## Model

| member | source | states |
|---|---|---|
| `Values.JavaRemTwo` | src/main/java/com/mitchellbosecke/pebble/extension/CoreExtension.java:266 | Java's `n % 2` satisfies `n == 2 * (n / 2 rounded toward zero) + r`. It has the sign of `n`, so it is -1 for negative odd `n`. It is zero exactly when the Euclidean remainder is zero. |
| `CoreExtension.EmptyTest` | src/main/java/com/mitchellbosecke/pebble/extension/CoreExtension.java:285-305 | The flag-based test, as written, answers exactly the case split `IsEmptyValue`: null, a blank string, or an empty collection or map. Nothing else is empty. An empty argument list raises IndexOutOfBounds. |
| `CoreExtension.NullTest` | src/main/java/com/mitchellbosecke/pebble/extension/CoreExtension.java:278-283 | True iff the value is null. Every value it accepts is also accepted by `empty`. An empty argument list raises IndexOutOfBounds. |
| `CoreExtension.EvenTest` | src/main/java/com/mitchellbosecke/pebble/extension/CoreExtension.java:260-268 | It answers exactly for an Integer, and then says whether the number is divisible by 2. Null raises NullPointer, from unboxing. Any other object raises ClassCast. An empty list raises IndexOutOfBounds. |
| `CoreExtension.OddTest` | src/main/java/com/mitchellbosecke/pebble/extension/CoreExtension.java:270-276 | It fails exactly when `even` fails, with the same exception. Otherwise it is the negation of `even`, true iff the Euclidean remainder by 2 is 1. |
| `CoreExtension.IterableTest` | src/main/java/com/mitchellbosecke/pebble/extension/CoreExtension.java:307-314 | True for every collection. False for null, strings, integers and maps. For any other object it is whether the object implements Iterable. |
| `CoreExtension.DefaultFilter` | src/main/java/com/mitchellbosecke/pebble/extension/CoreExtension.java:244-257 | With fewer than two arguments it raises IndexOutOfBounds. Otherwise it returns the fallback when the value is empty, and the value unchanged when it is not. |
| `CoreExtension.BlankIsEmptyZeroIsNot` | src/main/java/com/mitchellbosecke/pebble/extension/CoreExtension.java:289-293 | A string is empty iff it is blank (`""` and `" \t\n"` are). An integer, 0 included, is never empty. |
| `CoreExtension.DefaultIdempotent` | src/main/java/com/mitchellbosecke/pebble/extension/CoreExtension.java:248-255 | `default(default(x, d), d) == default(x, d)` for every `x` and `d`. |
| `CoreExtension.DefaultSelects` | src/main/java/com/mitchellbosecke/pebble/extension/CoreExtension.java:252-255 | When `x != d`, `default(x, d)` is `d` iff `x` is empty, and `x` iff it is not. |
| `CoreExtension.DefaultScenarios` | src/main/java/com/mitchellbosecke/pebble/extension/CoreExtension.java:244-257 | `default('x')` gives `'x'` for null and for `""`. It gives `"bob"` for `"bob"`. |
| `CoreExtension.NegativeOddIsOdd` | src/main/java/com/mitchellbosecke/pebble/extension/CoreExtension.java:264-274 | For a negative odd Integer, Java's remainder by 2 is -1. The number is not even, and it is odd. |
| `Registry.GetTokenParsers` | src/main/java/com/mitchellbosecke/pebble/extension/CoreExtension.java:57-68 | Appending the seven parsers in order yields the table block, extends, if, for, macro, import, include. |
| `Registry.GetBinaryOperators` | src/main/java/com/mitchellbosecke/pebble/extension/CoreExtension.java:75-85 | Appending the six operators yields the operator table. |
| `Registry.GetFilters` | src/main/java/com/mitchellbosecke/pebble/extension/CoreExtension.java:87-102 | Appending the eleven filters yields the filter table. |
| `Registry.GetTests` | src/main/java/com/mitchellbosecke/pebble/extension/CoreExtension.java:104-113 | Appending the five tests yields the test table. |
| `Registry.BinaryOperatorsWellFormed` | src/main/java/com/mitchellbosecke/pebble/extension/CoreExtension.java:76-84 | The table has six operators with pairwise distinct symbols, and every one is left-associative. |
| `Registry.BinaryOperatorPrecedence` | src/main/java/com/mitchellbosecke/pebble/extension/CoreExtension.java:78-83 | A lookup by each symbol finds its own entry. Precedence is ordered `or` < `and` < `==` = `!=` < `is` = `is not`. So `and` binds tighter than `or`, and `==`/`!=` tie. |
| `Registry.FilterNamesDistinct` | src/main/java/com/mitchellbosecke/pebble/extension/CoreExtension.java:88-101 | Eleven filters, with pairwise distinct names. |
| `Registry.TestNamesDistinct` | src/main/java/com/mitchellbosecke/pebble/extension/CoreExtension.java:105-112 | Five tests, with pairwise distinct names. |
| `Registry.TokenParsersDistinct` | src/main/java/com/mitchellbosecke/pebble/extension/CoreExtension.java:59-67 | Seven tag parsers, none registered twice. |
| `Registry.DefaultFilterBound` | src/main/java/com/mitchellbosecke/pebble/extension/CoreExtension.java:100 | Looking up `default` in the filter table finds the `default` filter body. |
| `Registry.TestNamesBound` | src/main/java/com/mitchellbosecke/pebble/extension/CoreExtension.java:104-113 | Looking up each of `even`, `odd`, `null`, `empty` and `iterable` finds a command. Running that command is the test of that name. |
| `Expressions.BinaryExpression.constructor` | src/main/java/com/mitchellbosecke/pebble/node/expression/BinaryExpression.java:15-21 | A new node has both children unset. |
| `Expressions.BinaryExpression.SetLeft` | src/main/java/com/mitchellbosecke/pebble/node/expression/BinaryExpression.java:23-25 | Afterwards `GetLeftExpression()` returns the argument, whatever it was before. The right child is unchanged. Only the left field may be modified. |
| `Expressions.BinaryExpression.SetRight` | src/main/java/com/mitchellbosecke/pebble/node/expression/BinaryExpression.java:27-29 | Afterwards `GetRightExpression()` returns the argument, whatever it was before. The left child is unchanged. Only the right field may be modified. |
| `Expressions.SettersOverwrite` | src/main/java/com/mitchellbosecke/pebble/node/expression/BinaryExpression.java:23-37 | Set left, then right, then left again. The getters return the last left and the right; the first value is gone. The getters are functions, so they modify nothing. |
| `Nodes.SetNode.constructor` | src/main/java/com/mitchellbosecke/pebble/node/SetNode.java:21-29 | `GetName()` and `GetValue()` return the constructor's arguments. The fields are `const`, so this holds for the node's whole life. |
| `Nodes.SetNode.Render` | src/main/java/com/mitchellbosecke/pebble/node/SetNode.java:31-34 | The value expression is evaluated once, against the bindings before the call. On failure, render fails with that error and the bindings are unchanged. On success, the new bindings are the old ones with `name` bound to the result. Looking up `name` then yields it, every other name looks up as before, and the writer's contents are unchanged. |
| `Nodes.EvaluationContext.Put` | src/main/java/com/mitchellbosecke/pebble/node/SetNode.java:33 | `put` adds or replaces the one binding. Lookups of other names are unchanged. |
| `Nodes.Evaluator.Evaluate` | src/main/java/com/mitchellbosecke/pebble/node/SetNode.java:33 | The result is the expression's meaning on the current bindings. The call appends the expression to the evaluation trace. |

## Left out

- Filters `lower`, `upper`, `capitalize`, `url_encode`, `format`, `date`, `number_format`, `abbreviate`, `trim` and `json_encode`: their bodies wrap Java and commons-lang/Jackson library code. That code covers locale-dependent case mapping, URL encoding, `String.format`, date parsing and formatting, decimal formatting and JSON encoding. It is not visible, and the floating-point and locale behaviour is not modelled. These filters appear in the registry table by name only.
- `getUnaryOperators`: it returns `null`, so the extension contributes no unary operators.
- `initRuntime`: it is a no-op.
- `accept(visitor)` in both nodes: it only dispatches to a visitor.
- The node classes that operators construct (`NodeExpressionBinaryAnd` and the rest) and the token-parser classes are not part of this model. Operators and parsers carry only a tag naming their class. Short-circuiting and equality semantics are not modelled.
- Operator lookup by symbol and test/filter lookup by name (`FindOperator`, `FindTest`, `FindFilter`) return the first entry with that name. The engine's own lookup is not part of this model. Because the names are distinct, any lookup rule finds the same entry (`Registry.DistinctIndexOf`).
- `EvaluationContext` is one flat map with `put` and lookup. The scope stack and the template reference behind it are not part of this model. Nor is where `put` writes in that stack.
- `Nodes.Evaluator.Evaluate`: an expression's result depends only on the expression and the current bindings. The `self` template argument is dropped. An expression that writes to the context, or depends on anything else, is not captured.
- `Writer`: the model gives it a character buffer only to state that `Render` leaves it as it was.
- The line number that `SetNode` passes to its superclass is kept as a field; error attribution by line is not modelled.
- `Values.IsJavaWhitespace` follows `Character.isWhitespace` for Unicode code points. Java strings are UTF-16, and the Unicode version behind that classification depends on the Java release; neither is modelled.
- Java objects that are both a `Collection` and a `Map`, and collections that change while being tested, are not modelled.
