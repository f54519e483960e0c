/**
 * The type system (semantic/typesys.py): constant tables from an operator and
 * operand type names to a result type name. A missing entry means the operator
 * is not defined for those types; a lookup never fails.
 */
module TypeSys {
  import opened Wrappers

  const TypeNames: set<string> := {"int", "float", "char", "bool"}

  const ArithmeticOps: set<string> := {"PLUS", "MINUS", "TIMES", "DIVIDE"}
  const ComparisonOps: set<string> := {"LT", "LE", "GT", "GE", "EQ", "NE"}

  /** Keys are (left type, operator, right type). */
  const BinOps: map<(string, string, string), string> := map[
    ("int", "PLUS", "int") := "int",
    ("int", "MINUS", "int") := "int",
    ("int", "TIMES", "int") := "int",
    ("int", "DIVIDE", "int") := "int",
    ("int", "LT", "int") := "bool",
    ("int", "LE", "int") := "bool",
    ("int", "GT", "int") := "bool",
    ("int", "GE", "int") := "bool",
    ("int", "EQ", "int") := "bool",
    ("int", "NE", "int") := "bool",
    ("float", "PLUS", "float") := "float",
    ("float", "MINUS", "float") := "float",
    ("float", "TIMES", "float") := "float",
    ("float", "DIVIDE", "float") := "float",
    ("float", "LT", "float") := "bool",
    ("float", "LE", "float") := "bool",
    ("float", "GT", "float") := "bool",
    ("float", "GE", "float") := "bool",
    ("float", "EQ", "float") := "bool",
    ("float", "NE", "float") := "bool",
    ("bool", "LAND", "bool") := "bool",
    ("bool", "LOR", "bool") := "bool",
    ("bool", "EQ", "bool") := "bool",
    ("bool", "NE", "bool") := "bool",
    ("char", "LT", "char") := "bool",
    ("char", "LE", "char") := "bool",
    ("char", "GT", "char") := "bool",
    ("char", "GE", "char") := "bool",
    ("char", "EQ", "char") := "bool",
    ("char", "NE", "char") := "bool"
  ]

  /** Keys are (operator, operand type). */
  const UnaryOps: map<(string, string), string> := map[
    ("PLUS", "int") := "int",
    ("MINUS", "int") := "int",
    ("GROW", "int") := "int",
    ("PLUS", "float") := "float",
    ("MINUS", "float") := "float",
    ("NOT", "bool") := "bool"
  ]

  /** The result type of `left op right`, or None when the table has no entry. */
  function CheckBinop(op: string, left: string, right: string): (r: Option<string>)
    ensures r.Some? <==> (left, op, right) in BinOps
    ensures r.Some? ==> left == right && left in TypeNames && r.value in TypeNames
  {
    if (left, op, right) in BinOps then Some(BinOps[(left, op, right)]) else None
  }

  /** The result type of `op operand`, or None when the table has no entry. */
  function CheckUnaryop(op: string, operand: string): (r: Option<string>)
    ensures r.Some? <==> (op, operand) in UnaryOps
    ensures r.Some? ==> r.value == operand
  {
    if (op, operand) in UnaryOps then Some(UnaryOps[(op, operand)]) else None
  }

  /** No entry mixes operand types: int with float (or any other pair) has no result. */
  lemma MixedOperandsUndefined(op: string, left: string, right: string)
    requires left != right
    ensures CheckBinop(op, left, right) == None
  {
  }

  /** The four arithmetic operators exist exactly for int and float, and keep the operand type. */
  lemma ArithmeticTable(op: string, t: string)
    requires op in ArithmeticOps
    ensures CheckBinop(op, t, t) == (if t == "int" || t == "float" then Some(t) else None)
  {
  }

  /** Every comparison that is defined yields bool; it is defined for int, float and char. */
  lemma ComparisonTable(op: string, t: string)
    requires op in ComparisonOps
    ensures CheckBinop(op, t, t).Some? ==> CheckBinop(op, t, t) == Some("bool")
    ensures CheckBinop(op, t, t).Some? <==> t in {"int", "float", "char"} || (t == "bool" && op in {"EQ", "NE"})
  {
  }

  /** bool supports only LAND, LOR, EQ and NE; char supports only the six comparisons. */
  lemma BoolAndCharTable(op: string)
    ensures CheckBinop(op, "bool", "bool").Some? <==> op in {"LAND", "LOR", "EQ", "NE"}
    ensures CheckBinop(op, "char", "char").Some? <==> op in ComparisonOps
    ensures CheckBinop(op, "bool", "bool").Some? ==> CheckBinop(op, "bool", "bool") == Some("bool")
    ensures CheckBinop(op, "char", "char").Some? ==> CheckBinop(op, "char", "char") == Some("bool")
  {
  }

  /** The logical operators are keyed LAND/LOR; the spellings "&&" and "||" have no entry. */
  lemma LogicalSpellingsUndefined(left: string, right: string)
    ensures CheckBinop("&&", left, right) == None && CheckBinop("||", left, right) == None
  {
  }

  /** PLUS and MINUS keep int or float, GROW applies to int only, NOT to bool only. */
  lemma UnaryTable(op: string, t: string)
    ensures CheckUnaryop(op, t).Some? <==>
              (op in {"PLUS", "MINUS"} && t in {"int", "float"})
              || (op == "GROW" && t == "int")
              || (op == "NOT" && t == "bool")
  {
  }
}
