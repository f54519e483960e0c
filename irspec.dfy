/**
 * The meaning of the IR generator (ircode.py) as functions: the instructions
 * each node appends to the function being generated, the locals and module
 * globals it declares, and the functions it creates, in creation order. The
 * classes of module IrCode are proved to follow these functions.
 *
 * The generator reads the symbol table the checker left behind through two
 * questions only, `get(name)` and `find_scope_of_type_name_child('function',
 * name)`; `IrEnv` is the value view of that table.
 */
module IrSpec {
  import opened Wrappers
  import opened Ast
  import opened Scopes
  import opened Opcodes

  /** Why generation raised: a key missing from one of the tables, or an attribute a node does not have. */
  datatype IrError =
    | NoTypeCode(t: Option<TypeName>)       // `_typemap[t]`
    | NoBinopCode(op: string)               // `_binop_code[(lt, op, rt)]`
    | NoUnaryCode(op: string)               // `_unaryop_code[(op, t)]`
    | NoTypeAttribute                       // `.type` of a node without one
    | NoReturnType(name: string)            // `get(name).return_type` of something that is not a function

  /** `_typemap`: the IR type of a source type. */
  function TypeMap(t: Option<TypeName>): (r: Result<string, IrError>)
    ensures r.Ok? <==> t.Some? && t.value in {"int", "float", "bool", "char"}
    ensures r.Ok? ==> (r.value == "F" <==> t == Some("float")) && r.value in {"I", "F"}
  {
    if t == Some("int") then Ok("I")
    else if t == Some("float") then Ok("F")
    else if t == Some("bool") then Ok("I")
    else if t == Some("char") then Ok("I")
    else Err(NoTypeCode(t))
  }

  /** `_binop_code`, keyed by (left type, operator, right type). */
  const BinopCodes: map<(string, string, string), Instr> := map[
    ("int", "PLUS", "int") := ADDI,
    ("int", "MINUS", "int") := SUBI,
    ("int", "TIMES", "int") := MULI,
    ("int", "DIVIDE", "int") := DIVI,
    ("int", "LT", "int") := LTI,
    ("int", "LE", "int") := LEI,
    ("int", "GT", "int") := GTI,
    ("int", "GE", "int") := GEI,
    ("int", "EQ", "int") := EQI,
    ("int", "NE", "int") := NEI,
    ("float", "PLUS", "float") := ADDF,
    ("float", "MINUS", "float") := SUBF,
    ("float", "TIMES", "float") := MULF,
    ("float", "DIVIDE", "float") := DIVF,
    ("float", "LT", "float") := LTF,
    ("float", "LE", "float") := LEF,
    ("float", "GT", "float") := GTF,
    ("float", "GE", "float") := GEF,
    ("float", "EQ", "float") := EQF,
    ("float", "NE", "float") := NEF,
    ("char", "LT", "char") := LTI,
    ("char", "LE", "char") := LEI,
    ("char", "GT", "char") := GTI,
    ("char", "GE", "char") := GEI,
    ("char", "EQ", "char") := EQI,
    ("char", "NE", "char") := NEI
  ]

  /** `_unaryop_code`, keyed by (operator, operand type). */
  const UnaryopCodes: map<(string, string), seq<Instr>> := map[
    ("PLUS", "int") := [],
    ("PLUS", "float") := [],
    ("MINUS", "int") := [CONSTI(-1), MULI],
    ("MINUS", "float") := [CONSTF("-1.0"), MULF],
    ("NOT", "bool") := [CONSTI(-1), MULI],
    ("^", "int") := [GROW]
  ]

  /** The binary opcode for operand types that may be None (None is never a key). */
  function BinopCode(lt: Option<TypeName>, op: string, rt: Option<TypeName>): Option<Instr> {
    if lt.Some? && rt.Some? && (lt.value, op, rt.value) in BinopCodes then Some(BinopCodes[(lt.value, op, rt.value)])
    else None
  }

  function UnaryopCode(op: string, t: Option<TypeName>): Option<seq<Instr>> {
    if t.Some? && (op, t.value) in UnaryopCodes then Some(UnaryopCodes[(op, t.value)]) else None
  }

  /** The table the generator asks: the chain `get` walks from it, and the views of its direct children. */
  datatype IrEnv = IrEnv(chain: Chain, children: seq<Scope>)

  /** A scope of kind "function" binding `name` to a true value. */
  predicate FunctionScopeBinds(s: Scope, name: string) {
    s.scopeType == "function" && BindsTruthy(s, name)
  }

  /**
   * `find_scope_of_type_name_child('function', name)` finds a table: the
   * table itself or one of its direct children is a function scope binding
   * the name. This is how the generator tells a local from a global.
   */
  predicate IsLocal(env: IrEnv, name: string) {
    (|env.chain| > 0 && FunctionScopeBinds(env.chain[0], name)) ||
    exists i :: 0 <= i < |env.children| && FunctionScopeBinds(env.children[i], name)
  }

  /**
   * `_get_expression_type`: a node's `type` attribute when it has one; a
   * binary operation with equal operand types has that type, else 'float'
   * if one side is 'float', else 'int'; a unary operation has its operand's
   * type; a call has the `return_type` of what `get` finds.
   */
  function ExprType(env: IrEnv, e: Expr): Result<Option<TypeName>, IrError> {
    if HasTypeAttr(e) then Ok(TypeAttr(e))
    else match e
      case BinOp(_, l, r) =>
        var lt :- ExprType(env, l);
        var rt :- ExprType(env, r);
        if lt == rt then Ok(lt)
        else if lt == Some("float") || rt == Some("float") then Ok(Some("float"))
        else Ok(Some("int"))
      case UnaryOp(_, x) => ExprType(env, x)
      case FunctionCall(name, _) =>
        var f := Lookup(env.chain, name);
        if f.Some? && f.value.FuncEntry? then Ok(f.value.returnType) else Err(NoReturnType(name))
      case _ => Err(NoTypeAttribute)
  }

  /** `_binop_code[(left type, op, right type)]`, the operand types as `_get_expression_type` finds them. */
  function BinopInstr(env: IrEnv, op: string, l: Expr, r: Expr): Result<Instr, IrError> {
    var lt :- ExprType(env, l);
    var rt :- ExprType(env, r);
    var c := BinopCode(lt, op, rt);
    if c.None? then Err(NoBinopCode(op)) else Ok(c.value)
  }

  /** The instruction that reads a name. */
  function LoadOf(env: IrEnv, name: string): Instr {
    if IsLocal(env, name) then LOCAL_GET(name) else GLOBAL_GET(name)
  }

  /** The instruction that stores into a name. */
  function StoreOf(env: IrEnv, name: string): Instr {
    if IsLocal(env, name) then LOCAL_SET(name) else GLOBAL_SET(name)
  }

  /** The code of an expression: operands first, then the operation (post-order). */
  function ExprCode(env: IrEnv, e: Expr): Result<seq<Instr>, IrError>
    decreases e, 1
  {
    match e
    case Integer(v) => Ok([CONSTI(v)])
    case Float(x) => Ok([CONSTF(x)])
    case Char(c) => Ok([CONSTB(c)])
    case Bool(b) => Ok([CONSTI(if b then 1 else 0)])
    case BinOp(op, l, r) =>
      var L :- ExprCode(env, l);
      var R :- ExprCode(env, r);
      var c :- BinopInstr(env, op, l, r);
      Ok(L + R + [c])
    case UnaryOp(op, x) =>
      var X :- ExprCode(env, x);
      if !HasTypeAttr(x) then Err(NoTypeAttribute)
      else
        var c := UnaryopCode(op, TypeAttr(x));
        if c.None? then Err(NoUnaryCode(op)) else Ok(X + c.value)
    case TypeCast(t, x) =>
      var X :- ExprCode(env, x);
      // the operand's `type` is read only when the target is 'float' or 'int'
      if t != "float" && t != "int" then Ok(X)
      else if !HasTypeAttr(x) then Err(NoTypeAttribute)
      else if t == "float" && TypeAttr(x) == Some("int") then Ok(X + [ITOF])
      else if t == "int" && TypeAttr(x) == Some("float") then Ok(X + [FTOI])
      else Ok(X)
    case FunctionCall(name, args) =>
      var A :- ArgsCode(env, args);
      Ok(A + [CALL(name)])
    case NamedLocation(name, _) => Ok([LoadOf(env, name)])
  }

  /** The arguments' code, left to right. */
  function ArgsCode(env: IrEnv, args: seq<Expr>): Result<seq<Instr>, IrError>
    decreases args, 0
  {
    if |args| == 0 then Ok([])
    else
      var A :- ExprCode(env, args[0]);
      var rest :- ArgsCode(env, args[1..]);
      Ok(A + rest)
  }

  /** A name declared with its IR type (`new_local`, or a module `IRGlobal`). */
  datatype Decl = Decl(name: string, irType: string)

  /** An `IRFunction` as the generator leaves it. */
  datatype FuncRec = FuncRec(name: string, parmnames: seq<string>, parmtypes: seq<string>, returnType: string,
                             locals: map<string, string>, code: seq<Instr>)

  /**
   * What generating a node did: the code appended to the current function,
   * the locals declared in it, the module globals declared, and the
   * functions created, in creation order, as they end up.
   */
  datatype Emit = Emit(code: seq<Instr>, locals: seq<Decl>, globals: seq<Decl>, funcs: seq<FuncRec>)

  function CodeOnly(c: seq<Instr>): Emit {
    Emit(c, [], [], [])
  }

  /** Declarations applied in order to a dictionary: a later one for the same name wins. */
  function Apply(m: map<string, string>, ds: seq<Decl>): map<string, string>
    decreases |ds|
  {
    if |ds| == 0 then m else Apply(m[ds[0].name := ds[0].irType], ds[1..])
  }

  /** The print instruction chosen by the expression's type. */
  function PrintOp(t: Option<TypeName>): Instr {
    if t == Some("int") then PRINTI else if t == Some("float") then PRINTF else PRINTB
  }

  function ParamNames(params: seq<Parameter>): (r: seq<string>)
    ensures |r| == |params| && forall i :: 0 <= i < |params| ==> r[i] == params[i].name
  {
    seq(|params|, i requires 0 <= i < |params| => params[i].name)
  }

  /** `[_typemap[p.type] for p in parameters]`: the first unmapped type raises. */
  function ParamTypes(params: seq<Parameter>): (r: Result<seq<string>, IrError>)
    ensures r.Ok? ==> |r.value| == |params|
    decreases |params|
  {
    if |params| == 0 then Ok([])
    else
      var t :- TypeMap(Some(params[0].paramType));
      var rest :- ParamTypes(params[1..]);
      Ok([t] + rest)
  }

  /** What generating one statement into the current function does. */
  function StmtEmit(env: IrEnv, s: Stmt): Result<Emit, IrError>
    decreases s, 1
  {
    match s
    case Assignment(loc, x) =>
      var X :- ExprCode(env, x);
      Ok(CodeOnly(X + [if loc.NamedLocation? then StoreOf(env, loc.name) else POKEI]))
    case Print(x) =>
      var X :- ExprCode(env, x);
      var t :- ExprType(env, x);
      Ok(CodeOnly(X + [PrintOp(t)]))
    case ExprStmt(x) =>
      var X :- ExprCode(env, x);
      Ok(CodeOnly(X))
    case If(test, c, alt) =>
      var T :- ExprCode(env, test);
      var C :- BlockEmit(env, c);
      var A :- if alt.Else? && |alt.stmts| > 0 then BlockEmit(env, alt.stmts) else Ok(CodeOnly([]));
      Ok(Emit(T + [IF] + C.code + [ELSE] + A.code + [ENDIF], C.locals + A.locals, C.globals + A.globals, C.funcs + A.funcs))
    case While(test, body) =>
      var T :- ExprCode(env, test);
      var B :- BlockEmit(env, body);
      Ok(Emit([LOOP, CONSTI(1)] + T + [SUBI, CBREAK] + B.code + [ENDLOOP], B.locals, B.globals, B.funcs))
    case Break => Ok(CodeOnly([CBREAK]))
    case Continue => Ok(CodeOnly([CONTINUE]))
    case Return(v) =>
      if v.None? then Ok(CodeOnly([RET]))
      else
        var V :- ExprCode(env, v.value);
        Ok(CodeOnly(V + [RET]))
    case Variable(name, t, init, _) =>
      if init.None? then Ok(CodeOnly([]))
      else
        var V :- ExprCode(env, init.value);
        var ty :- TypeMap(t);
        if IsLocal(env, name) then Ok(Emit(V + [LOCAL_SET(name)], [Decl(name, ty)], [], []))
        else Ok(Emit(V + [GLOBAL_SET(name)], [], [Decl(name, ty)], []))
    case Function(name, params, rt, body) =>
      var pt :- ParamTypes(params);
      var r :- TypeMap(rt);
      var B :- BlockEmit(env, body);
      Ok(Emit([], [], B.globals, [FuncRec(name, ParamNames(params), pt, r, Apply(map[], B.locals), B.code)] + B.funcs))
  }

  /** What generating `a` and then `b` into the same function did. */
  function Then(a: Emit, b: Emit): Emit {
    Emit(a.code + b.code, a.locals + b.locals, a.globals + b.globals, a.funcs + b.funcs)
  }

  /** Statements one after another into the same function. */
  function BlockEmit(env: IrEnv, stmts: seq<Stmt>): Result<Emit, IrError>
    decreases stmts, 2
  {
    if |stmts| == 0 then Ok(CodeOnly([]))
    else
      var h :- StmtEmit(env, stmts[0]);
      var t :- BlockEmit(env, stmts[1..]);
      Ok(Then(h, t))
  }

  /** `module.functions` after registering the functions in creation order: a later one of the same name wins. */
  function Registry(fs: seq<FuncRec>): map<string, FuncRec>
    decreases |fs|
  {
    if |fs| == 0 then map[] else Registry(fs[..|fs| - 1])[fs[|fs| - 1].name := fs[|fs| - 1]]
  }

  /** An `IRModule` as the generator leaves it. */
  datatype ModuleRec = ModuleRec(functions: map<string, FuncRec>, globals: map<string, string>)

  /**
   * `gencode`: an entry function 'main' with no parameters returning 'I' is
   * created first; the top-level statements are generated into it, and it
   * ends with `CALL _actual_main` when a function of that name exists, else
   * `CONSTI 0`, and then `RET`.
   */
  function Gencode(env: IrEnv, stmts: seq<Stmt>): Result<ModuleRec, IrError> {
    var B :- BlockEmit(env, stmts);
    var tail := if "_actual_main" in Registry(B.funcs) then CALL("_actual_main") else CONSTI(0);
    var entry := FuncRec("main", [], [], "I", Apply(map[], B.locals), B.code + [tail, RET]);
    Ok(ModuleRec(Registry([entry] + B.funcs), Apply(map[], B.globals)))
  }
}
