/** The tables the core extension registers with the engine: binary
    operators with their precedence and associativity, and the names of its
    filters, tests and tags. Each `Get...` method builds its list by
    successive appends, as the extension does, and is proved to produce the
    table stated by the matching constant; the lemmas state what the tables
    promise: distinct names, the precedence order, left associativity, and
    which command each name is bound to. */
module Registry {
  import opened Values
  import CoreExtension

  datatype Associativity = Left | Right

  /** The node class an operator builds; what the nodes compute is not part
      of this model. */
  datatype BinaryNodeKind = AndNode | OrNode | EqualNode | NotEqualNode | IsNode | IsNotNode

  datatype Operator = Operator(symbol: string, precedence: int, nodeKind: BinaryNodeKind, associativity: Associativity)

  /** The filter bodies the extension defines, one per filter. */
  datatype FilterCommand =
    | LowerFilter | UpperFilter | DateFilter | UrlEncoderFilter | FormatFilter | NumberFilter
    | AbbreviateFilter | CapitalizeFilter | TrimFilter | JsonEncodeFilter | DefaultFilter

  datatype Filter = FilterFunction(name: string, command: FilterCommand)

  /** The test bodies the extension defines, one per test. */
  datatype TestCommand = EvenTest | OddTest | NullTest | EmptyTest | IterableTest

  datatype Test = TestFunction(name: string, command: TestCommand)

  /** The statement parsers the extension registers. */
  datatype TokenParser =
    | BlockTokenParser | ExtendsTokenParser | IfTokenParser | ForTokenParser
    | MacroTokenParser | ImportTokenParser | IncludeTokenParser

  const BinaryOperatorTable: seq<Operator> := [
    Operator("and", 15, AndNode, Left),
    Operator("or", 10, OrNode, Left),
    Operator("==", 20, EqualNode, Left),
    Operator("!=", 20, NotEqualNode, Left),
    Operator("is", 100, IsNode, Left),
    Operator("is not", 100, IsNotNode, Left)
  ]

  const FilterTable: seq<Filter> := [
    FilterFunction("lower", LowerFilter),
    FilterFunction("upper", UpperFilter),
    FilterFunction("date", DateFilter),
    FilterFunction("url_encode", UrlEncoderFilter),
    FilterFunction("format", FormatFilter),
    FilterFunction("number_format", NumberFilter),
    FilterFunction("abbreviate", AbbreviateFilter),
    FilterFunction("capitalize", CapitalizeFilter),
    FilterFunction("trim", TrimFilter),
    FilterFunction("json_encode", JsonEncodeFilter),
    FilterFunction("default", DefaultFilter)
  ]

  const TestTable: seq<Test> := [
    TestFunction("even", EvenTest),
    TestFunction("odd", OddTest),
    TestFunction("null", NullTest),
    TestFunction("empty", EmptyTest),
    TestFunction("iterable", IterableTest)
  ]

  const TokenParserTable: seq<TokenParser> := [
    BlockTokenParser, ExtendsTokenParser, IfTokenParser, ForTokenParser,
    MacroTokenParser, ImportTokenParser, IncludeTokenParser
  ]

  method GetTokenParsers() returns (parsers: seq<TokenParser>)
    ensures parsers == TokenParserTable
  {
    parsers := [];
    parsers := parsers + [BlockTokenParser];
    parsers := parsers + [ExtendsTokenParser];
    parsers := parsers + [IfTokenParser];
    parsers := parsers + [ForTokenParser];
    parsers := parsers + [MacroTokenParser];
    parsers := parsers + [ImportTokenParser];
    parsers := parsers + [IncludeTokenParser];
  }

  method GetBinaryOperators() returns (operators: seq<Operator>)
    ensures operators == BinaryOperatorTable
  {
    operators := [];
    operators := operators + [Operator("and", 15, AndNode, Left)];
    operators := operators + [Operator("or", 10, OrNode, Left)];
    operators := operators + [Operator("==", 20, EqualNode, Left)];
    operators := operators + [Operator("!=", 20, NotEqualNode, Left)];
    operators := operators + [Operator("is", 100, IsNode, Left)];
    operators := operators + [Operator("is not", 100, IsNotNode, Left)];
  }

  method GetFilters() returns (filters: seq<Filter>)
    ensures filters == FilterTable
  {
    filters := [];
    filters := filters + [FilterFunction("lower", LowerFilter)];
    filters := filters + [FilterFunction("upper", UpperFilter)];
    filters := filters + [FilterFunction("date", DateFilter)];
    filters := filters + [FilterFunction("url_encode", UrlEncoderFilter)];
    filters := filters + [FilterFunction("format", FormatFilter)];
    filters := filters + [FilterFunction("number_format", NumberFilter)];
    filters := filters + [FilterFunction("abbreviate", AbbreviateFilter)];
    filters := filters + [FilterFunction("capitalize", CapitalizeFilter)];
    filters := filters + [FilterFunction("trim", TrimFilter)];
    filters := filters + [FilterFunction("json_encode", JsonEncodeFilter)];
    filters := filters + [FilterFunction("default", DefaultFilter)];
  }

  method GetTests() returns (tests: seq<Test>)
    ensures tests == TestTable
  {
    tests := [];
    tests := tests + [TestFunction("even", EvenTest)];
    tests := tests + [TestFunction("odd", OddTest)];
    tests := tests + [TestFunction("null", NullTest)];
    tests := tests + [TestFunction("empty", EmptyTest)];
    tests := tests + [TestFunction("iterable", IterableTest)];
  }

  /** Runs the test body a command stands for. */
  function RunTest(command: TestCommand, args: seq<Value>): Result<bool> {
    match command
    case EvenTest => CoreExtension.EvenTest(args)
    case OddTest => CoreExtension.OddTest(args)
    case NullTest => CoreExtension.NullTest(args)
    case EmptyTest => CoreExtension.EmptyTest(args)
    case IterableTest => CoreExtension.IterableTest(args)
  }

  predicate Distinct<T(==)>(xs: seq<T>) {
    forall i, j :: 0 <= i < j < |xs| ==> xs[i] != xs[j]
  }

  /** The position of the first occurrence of `x` in `xs`, if any. */
  function IndexOf<T(==)>(xs: seq<T>, x: T): (r: Option<nat>)
    ensures r.None? <==> x !in xs
    ensures r.Some? ==> r.value < |xs| && xs[r.value] == x
    ensures r.Some? ==> forall j :: 0 <= j < r.value ==> xs[j] != x
  {
    if |xs| == 0 then None
    else if xs[0] == x then Some(0)
    else match IndexOf(xs[1..], x)
      case None => None
      case Some(k) => Some(k + 1)
  }

  /** In a list without repetitions, the lookup of an element finds exactly
      its own position, whatever the order of registration. */
  lemma DistinctIndexOf<T>(xs: seq<T>, i: nat)
    requires Distinct(xs) && i < |xs|
    ensures IndexOf(xs, xs[i]) == Some(i)
  {
  }

  function Symbols(operators: seq<Operator>): (names: seq<string>)
    ensures |names| == |operators|
    ensures forall i :: 0 <= i < |operators| ==> names[i] == operators[i].symbol
  {
    seq(|operators|, i requires 0 <= i < |operators| => operators[i].symbol)
  }

  function FilterNames(filters: seq<Filter>): (names: seq<string>)
    ensures |names| == |filters|
    ensures forall i :: 0 <= i < |filters| ==> names[i] == filters[i].name
  {
    seq(|filters|, i requires 0 <= i < |filters| => filters[i].name)
  }

  function TestNames(tests: seq<Test>): (names: seq<string>)
    ensures |names| == |tests|
    ensures forall i :: 0 <= i < |tests| ==> names[i] == tests[i].name
  {
    seq(|tests|, i requires 0 <= i < |tests| => tests[i].name)
  }

  /** The operator registered under `symbol`, if any. */
  function FindOperator(operators: seq<Operator>, symbol: string): (r: Option<Operator>)
    ensures r.Some? ==> r.value in operators && r.value.symbol == symbol
    ensures r.None? ==> forall op :: op in operators ==> op.symbol != symbol
  {
    match IndexOf(Symbols(operators), symbol)
    case None => None
    case Some(i) => Some(operators[i])
  }

  /** The test registered under `name`, if any. */
  function FindTest(tests: seq<Test>, name: string): (r: Option<TestCommand>)
    ensures r.Some? ==> TestFunction(name, r.value) in tests
    ensures r.None? ==> forall t :: t in tests ==> t.name != name
  {
    match IndexOf(TestNames(tests), name)
    case None => None
    case Some(i) => Some(tests[i].command)
  }

  /** The filter registered under `name`, if any. */
  function FindFilter(filters: seq<Filter>, name: string): (r: Option<FilterCommand>)
    ensures r.Some? ==> FilterFunction(name, r.value) in filters
    ensures r.None? ==> forall f :: f in filters ==> f.name != name
  {
    match IndexOf(FilterNames(filters), name)
    case None => None
    case Some(i) => Some(filters[i].command)
  }

  /** Whether `a` binds tighter than `b` in `operators`. */
  predicate BindsTighter(operators: seq<Operator>, a: string, b: string) {
    var x := FindOperator(operators, a);
    var y := FindOperator(operators, b);
    x.Some? && y.Some? && x.value.precedence > y.value.precedence
  }

  /** Six operators with pairwise distinct symbols, all left-associative. */
  lemma BinaryOperatorsWellFormed()
    ensures |BinaryOperatorTable| == 6
    ensures Distinct(Symbols(BinaryOperatorTable))
    ensures forall op :: op in BinaryOperatorTable ==> op.associativity == Left
  {
  }

  /** Precedence climbs `or` (10) < `and` (15) < `==`, `!=` (20) < `is`,
      `is not` (100), so `and` binds tighter than `or`. */
  lemma {:induction false} BinaryOperatorPrecedence()
    ensures FindOperator(BinaryOperatorTable, "or") == Some(BinaryOperatorTable[1])
    ensures FindOperator(BinaryOperatorTable, "and") == Some(BinaryOperatorTable[0])
    ensures FindOperator(BinaryOperatorTable, "==") == Some(BinaryOperatorTable[2])
    ensures FindOperator(BinaryOperatorTable, "!=") == Some(BinaryOperatorTable[3])
    ensures FindOperator(BinaryOperatorTable, "is") == Some(BinaryOperatorTable[4])
    ensures FindOperator(BinaryOperatorTable, "is not") == Some(BinaryOperatorTable[5])
    ensures BinaryOperatorTable[1].precedence < BinaryOperatorTable[0].precedence
              < BinaryOperatorTable[2].precedence == BinaryOperatorTable[3].precedence
              < BinaryOperatorTable[4].precedence == BinaryOperatorTable[5].precedence
    ensures BindsTighter(BinaryOperatorTable, "and", "or")
    ensures !BindsTighter(BinaryOperatorTable, "==", "!=") && !BindsTighter(BinaryOperatorTable, "!=", "==")
  {
    var names := Symbols(BinaryOperatorTable);
    BinaryOperatorsWellFormed();
    DistinctIndexOf(names, 0);
    DistinctIndexOf(names, 1);
    DistinctIndexOf(names, 2);
    DistinctIndexOf(names, 3);
    DistinctIndexOf(names, 4);
    DistinctIndexOf(names, 5);
  }

  /** Eleven filters, each name registered once. */
  lemma FilterNamesDistinct()
    ensures Distinct(FilterNames(FilterTable)) && |FilterTable| == 11
  {
  }

  /** Five tests, each name registered once. */
  lemma TestNamesDistinct()
    ensures Distinct(TestNames(TestTable)) && |TestTable| == 5
  {
  }

  /** Seven statement parsers, none registered twice. */
  lemma TokenParsersDistinct()
    ensures Distinct(TokenParserTable) && |TokenParserTable| == 7
  {
  }

  /** The name `default` is bound to the `default` filter body, the one
      modelled by `CoreExtension.DefaultFilter`. */
  lemma {:induction false} DefaultFilterBound()
    ensures FindFilter(FilterTable, "default") == Some(DefaultFilter)
  {
    FilterNamesDistinct();
    DistinctIndexOf(FilterNames(FilterTable), 10);
  }

  /** Each test name runs the body it is named after: looking a name up in
      the table and running what is found is the test of that name. */
  lemma {:induction false} TestNamesBound(args: seq<Value>)
    ensures FindTest(TestTable, "even").Some? && RunTest(FindTest(TestTable, "even").value, args) == CoreExtension.EvenTest(args)
    ensures FindTest(TestTable, "odd").Some? && RunTest(FindTest(TestTable, "odd").value, args) == CoreExtension.OddTest(args)
    ensures FindTest(TestTable, "null").Some? && RunTest(FindTest(TestTable, "null").value, args) == CoreExtension.NullTest(args)
    ensures FindTest(TestTable, "empty").Some? && RunTest(FindTest(TestTable, "empty").value, args) == CoreExtension.EmptyTest(args)
    ensures FindTest(TestTable, "iterable").Some? && RunTest(FindTest(TestTable, "iterable").value, args) == CoreExtension.IterableTest(args)
  {
    var names := TestNames(TestTable);
    TestNamesDistinct();
    DistinctIndexOf(names, 0);
    DistinctIndexOf(names, 1);
    DistinctIndexOf(names, 2);
    DistinctIndexOf(names, 3);
    DistinctIndexOf(names, 4);
  }
}
