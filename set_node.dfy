/** The `set` statement node and the parts of the render environment it
    touches: the evaluation context it writes one binding into, the output
    writer it leaves alone, and the evaluation of its value expression. */
module Nodes {
  import opened Values
  import opened Expressions

  /** The variables visible to a render, as one map from name to value;
      `Put` adds or replaces one binding. */
  class EvaluationContext {
    var bindings: map<string, Value>

    constructor (initial: map<string, Value>)
      ensures bindings == initial
    {
      bindings := initial;
    }

    /** The value bound to `key`, if any. */
    function Get(key: string): Option<Value>
      reads this
    {
      if key in bindings then Some(bindings[key]) else None
    }

    method Put(key: string, value: Value)
      modifies this
      ensures bindings == old(bindings)[key := value]
      ensures Get(key) == Some(value)
      ensures forall k :: k != key ==> Get(k) == old(Get(k))
    {
      bindings := bindings[key := value];
    }
  }

  /** The output sink of a render: everything written so far. */
  class Writer {
    var written: seq<char>

    constructor ()
      ensures written == []
    {
      written := [];
    }
  }

  /** Evaluation of expressions. `meaning` gives the outcome of evaluating
      an expression against the context's bindings (expressions only read
      the context); `trace` records every evaluation, in order. */
  class Evaluator {
    const meaning: (Expression, map<string, Value>) -> Result<Value>
    ghost var trace: seq<Expression>

    constructor (meaning: (Expression, map<string, Value>) -> Result<Value>)
      ensures this.meaning == meaning && trace == []
    {
      this.meaning := meaning;
      trace := [];
    }

    method Evaluate(e: Expression, context: EvaluationContext) returns (r: Result<Value>)
      modifies this`trace
      ensures r == meaning(e, context.bindings)
      ensures trace == old(trace) + [e]
    {
      r := meaning(e, context.bindings);
      trace := trace + [e];
    }
  }

  /** The outcome of rendering a node: done, or the error it raised. */
  datatype Outcome = Pass | Fail(error: Error)

  /** `set name = value`. Name and value are fixed at construction. */
  class SetNode {
    const lineNumber: int
    const name: string
    const value: Expression

    constructor (lineNumber: int, name: string, value: Expression)
      ensures GetName() == name && GetValue() == value && this.lineNumber == lineNumber
    {
      this.lineNumber := lineNumber;
      this.name := name;
      this.value := value;
    }

    function GetName(): string {
      name
    }

    function GetValue(): Expression {
      value
    }

    /** Evaluates the value expression once, against the context as it is,
        then binds the result to the name. A failed evaluation propagates
        before anything is bound. Nothing is written to the writer. */
    method Render(writer: Writer, context: EvaluationContext, evaluator: Evaluator) returns (outcome: Outcome)
      modifies context, evaluator`trace
      ensures evaluator.trace == old(evaluator.trace) + [value]
      ensures var v := evaluator.meaning(value, old(context.bindings));
        && (outcome.Fail? <==> v.Err?)
        && (v.Err? ==> outcome == Fail(v.error) && context.bindings == old(context.bindings))
        && (v.Ok? ==> context.bindings == old(context.bindings)[name := v.value])
      ensures outcome.Pass? ==> context.Get(name) == Some(evaluator.meaning(value, old(context.bindings)).value)
      ensures forall k :: k != name ==> context.Get(k) == old(context.Get(k))
      ensures writer.written == old(writer.written)
    {
      var v := evaluator.Evaluate(value, context);
      match v
      case Err(e) =>
        outcome := Fail(e);
      case Ok(x) =>
        context.Put(name, x);
        outcome := Pass;
    }
  }
}
