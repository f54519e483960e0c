/**
 * The syntax tree of GoxLang programs (parser/modelo.py): a closed set of node
 * records. Python's `Node.accept(v, env)` double dispatch becomes a `match` over
 * these datatypes in each stage that walks the tree.
 */
module Ast {
  import opened Wrappers

  /** Type names are the strings the parser copies out of TYPE tokens ('int', 'float', ...). */
  type TypeName = string

  datatype Expr =
    | Integer(ival: int)
    | Float(lexeme: string)          // the numeric value is never inspected by the core
    | Bool(bval: bool)
    | Char(cval: string)
    | BinOp(op: string, left: Expr, right: Expr)
    | UnaryOp(op: string, operand: Expr)
    | TypeCast(targetType: TypeName, expression: Expr)
    | FunctionCall(name: string, arguments: seq<Expr>)
    /** `locType` is None when parsed; the checker fills it from the resolved symbol. */
    | NamedLocation(name: string, locType: Option<TypeName>)

  /** A parameter holds only a name and a type; it is not a tree node. */
  datatype Parameter = Parameter(name: string, paramType: TypeName)

  datatype Stmt =
    | Assignment(loc: Expr, expr: Expr)
    | Print(expression: Expr)
    | If(test: Expr, consequence: seq<Stmt>, alternative: Alternative)
    | While(test: Expr, body: seq<Stmt>)
    | Break
    | Continue
    | Return(value: Option<Expr>)
    | Variable(name: string, varType: Option<TypeName>, init: Option<Expr>, isConst: bool)
    | Function(name: string, parameters: seq<Parameter>, returnType: Option<TypeName>, body: seq<Stmt>)
    /** An expression in a statement list: the parser puts a call statement `f(...);` there as a bare FunctionCall. */
    | ExprStmt(node: Expr)

  /** An If's `alternative`: None when there is no else branch, else the list of its statements (possibly empty). */
  datatype Alternative = NoElse | Else(stmts: seq<Stmt>)

  datatype Program = Program(stmts: seq<Stmt>)

  /** Python truthiness of an optional string: None and '' are false. */
  predicate Truthy(t: Option<string>) {
    t.Some? && t.value != ""
  }

  /** The nodes that carry a `type` attribute: the four literals and NamedLocation. */
  predicate HasTypeAttr(e: Expr) {
    e.Integer? || e.Float? || e.Bool? || e.Char? || e.NamedLocation?
  }

  /** The `type` attribute: a fixed name for each literal class, the stored one for a location. */
  function TypeAttr(e: Expr): Option<TypeName>
    requires HasTypeAttr(e)
  {
    match e
    case Integer(_) => Some("int")
    case Float(_) => Some("float")
    case Bool(_) => Some("bool")
    case Char(_) => Some("char")
    case NamedLocation(_, t) => t
  }

  /** A literal's type depends only on its class, never on its value. */
  lemma LiteralTypesFixed(e: Expr)
    requires e.Integer? || e.Float? || e.Bool? || e.Char?
    ensures HasTypeAttr(e)
    ensures TypeAttr(e) == Some(if e.Integer? then "int" else if e.Float? then "float"
                                else if e.Bool? then "bool" else "char")
    ensures forall n: int :: TypeAttr(Integer(n)) == Some("int")
  {
  }
}
