/** Expressions as the AST nodes see them, and the binary expression node,
    whose two children are set after construction by the parser. */
module Expressions {
  import opened Values

  /** The identity of an expression node. What an expression computes is
      supplied from outside (see `Nodes.Evaluator`); only its identity
      matters to the nodes modelled here. */
  datatype Expression = Expression(id: nat)

  /** A binary expression: a left and a right child, each unset (Java
      null) until its setter is called. Setters overwrite. */
  class BinaryExpression {
    var leftExpression: Option<Expression>
    var rightExpression: Option<Expression>

    /** A new node has neither child. */
    constructor ()
      ensures GetLeftExpression() == None && GetRightExpression() == None
    {
      leftExpression := None;
      rightExpression := None;
    }

    /** Replaces the left child, whatever it was; the right child stays. */
    method SetLeft(left: Option<Expression>)
      modifies this`leftExpression
      ensures GetLeftExpression() == left
      ensures GetRightExpression() == old(GetRightExpression())
    {
      leftExpression := left;
    }

    /** Replaces the right child, whatever it was; the left child stays. */
    method SetRight(right: Option<Expression>)
      modifies this`rightExpression
      ensures GetRightExpression() == right
      ensures GetLeftExpression() == old(GetLeftExpression())
    {
      rightExpression := right;
    }

    /** Reads the left child; being a function, it changes nothing. */
    function GetLeftExpression(): Option<Expression>
      reads this
    {
      leftExpression
    }

    /** Reads the right child; being a function, it changes nothing. */
    function GetRightExpression(): Option<Expression>
      reads this
    {
      rightExpression
    }
  }

  /** A client filling a node in the order a parser may: the last value
      given to a side is the one its getter returns, and setting one side
      never disturbs the other. */
  method SettersOverwrite(first: Expression, left: Expression, right: Expression) returns (node: BinaryExpression)
    ensures fresh(node)
    ensures node.GetLeftExpression() == Some(left)
    ensures node.GetRightExpression() == Some(right)
  {
    node := new BinaryExpression();
    node.SetLeft(Some(first));
    node.SetRight(Some(right));
    node.SetLeft(Some(left));
  }
}
