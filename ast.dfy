/**
 * The abstract syntax tree the evaluator walks and the pattern matcher inspects: one
 * constructor per node `type`, carrying the fields the visitors read.
 */
module Ast {

  datatype Node =
    | File(nodes: seq<Node>)
    | IdentifierExpression(name: string)
    | BooleanExpression(bval: bool)
    | NumberExpression(nval: int)
    | StringExpression(sval: string)
    | ArrayExpression(values: seq<Node>)
    | RestElement(value: Node)
    | ObjectExpression(properties: seq<Node>)
    | ObjectProperty(property: Node)
    | ObjectAccessExpression(expression: Node, accessIdentifier: string)
    | BinaryExpression(left: Node, operator: string, right: Node)
    | UnaryExpression(unaryOperator: string, operand: Node)
    | FunctionExpression(parameters: seq<Node>, body: Node)
    | CallExpression(callee: Node, arguments: seq<Node>)
    | NamedParameter(paramName: string, paramValue: Node)
    | LetExpression(declarations: seq<Node>, letBody: Node)
    | PatternExpression(subject: Node, patternCases: seq<Node>)
    | PatternCase(pattern: Node, result: Node)
    | NoPattern
    | Declaration(declarator: Node, declValue: Node)

  /** No element of an array pattern or array literal is a rest element. */
  predicate NoRest(ns: seq<Node>) {
    forall i :: 0 <= i < |ns| ==> !ns[i].RestElement?
  }
}
