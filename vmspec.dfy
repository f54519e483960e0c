/**
 * The meaning of the stack machine (stack_machine.py) as functions on a
 * machine value: what each opcode handler does to the machine, one
 * fetch-dispatch-advance step, and a run bounded by a step budget. The class
 * in module StackMachine is proved to follow these functions.
 */
module VmSpec {
  import opened Wrappers
  import opened Opcodes

  /** An operand: Python's type-tagged pair such as ('int', 5). */
  datatype Value = Value(tag: string, n: int)

  function IntValue(n: int): Value { Value("int", n) }

  /** What the print opcodes write: a number, or the character with that code. */
  datatype Printed = PrintedInt(n: int) | PrintedChar(code: int)

  /** A call-stack entry: the caller's program counter and instruction list. */
  datatype Frame = Frame(pc: nat, program: seq<Instr>)

  datatype Machine = Machine(
    stack: seq<Value>,
    globals: map<string, Value>,
    localsStack: seq<map<string, Value>>,
    callStack: seq<Frame>,
    functions: map<string, seq<Instr>>,
    functionParams: map<string, seq<string>>,
    pc: int,
    program: seq<Instr>,
    running: bool,
    currentFunction: Option<string>,
    output: seq<Printed>)

  /** What a handler raises. */
  datatype Fault =
    | UnknownOpcode(instr: Instr)
    | StackUnderflow                  // pop from an empty list
    | NotAnInteger                    // an operand not tagged 'int'
    | DivisionByZero
    | BadCharCode                     // chr() of a value outside the code point range
    | UnbalancedControl               // a scan ran off either end of the instructions
    | UndefinedFunction(name: string)
    | NoLocals
    | UndefinedLocal(name: string)
    | UndefinedGlobal(name: string)
    | MissingArgument(name: string)
    | NothingToStore(name: string)    // GLOBAL_SET on an empty stack

  /** A handler's result: the next machine, or the fault and the machine as the fault left it. */
  datatype Outcome = Next(m: Machine) | Stop(fault: Fault, m: Machine)

  const MaxCodePoint: int := 0x10FFFF

  function Last<T>(s: seq<T>): T
    requires |s| > 0
  {
    s[|s| - 1]
  }

  function DropLast<T>(s: seq<T>): seq<T>
    requires |s| > 0
  {
    s[..|s| - 1]
  }

  // ---------------------------------------------------------------- arithmetic

  /** Python's `//`: the quotient rounded toward negative infinity. */
  function FloorDiv(a: int, b: int): int
    requires b != 0
  {
    if b > 0 then a / b else (-a) / (-b)
  }

  /** Python's `%`: the remainder that goes with FloorDiv, carrying the sign of the divisor. */
  function FloorMod(a: int, b: int): int
    requires b != 0
  {
    a - b * FloorDiv(a, b)
  }

  lemma FloorDivision(a: int, b: int)
    requires b != 0
    ensures a == b * FloorDiv(a, b) + FloorMod(a, b)
    ensures b > 0 ==> 0 <= FloorMod(a, b) < b
    ensures b < 0 ==> b < FloorMod(a, b) <= 0
    ensures b > 0 ==> FloorDiv(a, b) * b <= a < (FloorDiv(a, b) + 1) * b
  {
    if b < 0 {
      var q := (-a) / (-b);
      var r := (-a) % (-b);
      assert -a == (-b) * q + r && 0 <= r < -b;
      assert FloorMod(a, b) == a - b * q;
      assert a - b * q == -r;
    }
  }

  /** The value an integer binary opcode pushes; comparisons push 1 or 0. */
  function IntResult(instr: Instr, a: int, b: int): int
    requires instr.IsIntBinary()
    requires (instr.DIVI? || instr.MODI?) ==> b != 0
  {
    match instr
    case ADDI => a + b
    case SUBI => a - b
    case MULI => a * b
    case DIVI => FloorDiv(a, b)
    case MODI => FloorMod(a, b)
    case LTI => if a < b then 1 else 0
    case LEI => if a <= b then 1 else 0
    case GTI => if a > b then 1 else 0
    case GEI => if a >= b then 1 else 0
    case EQI => if a == b then 1 else 0
    case NEI => if a != b then 1 else 0
  }

  /** Pop b, pop a, insist both are tagged 'int', refuse a zero divisor, push the result. */
  function ExecIntBinary(m: Machine, instr: Instr): Outcome
    requires instr.IsIntBinary()
  {
    if |m.stack| == 0 then Stop(StackUnderflow, m)
    else
      var b := Last(m.stack);
      var s1 := DropLast(m.stack);
      if |s1| == 0 then Stop(StackUnderflow, m.(stack := s1))
      else
        var a := Last(s1);
        var s2 := DropLast(s1);
        if !(a.tag == b.tag && b.tag == "int") then Stop(NotAnInteger, m.(stack := s2))
        else if (instr.DIVI? || instr.MODI?) && b.n == 0 then Stop(DivisionByZero, m.(stack := s2))
        else Next(m.(stack := s2 + [IntValue(IntResult(instr, a.n, b.n))]))
  }

  // ---------------------------------------------------------------- scans

  /** Which structured marker a forward scan is looking for. */
  datatype ScanKind = SkipToElse | SkipToEndif | SkipToEndloop

  /** How one instruction changes the nesting depth of a forward scan (0 means found). */
  function ScanDepth(kind: ScanKind, i: Instr, depth: nat): nat
    requires depth > 0
  {
    match kind
    case SkipToElse =>
      if i.IF? then depth + 1
      else if i.ELSE? && depth == 1 then 0
      else if i.ENDIF? then depth - 1
      else depth
    case SkipToEndif =>
      if i.IF? then depth + 1 else if i.ENDIF? then depth - 1 else depth
    case SkipToEndloop =>
      if i.LOOP? then depth + 1 else if i.ENDLOOP? then depth - 1 else depth
  }

  /**
   * The forward scan loop of IF, ELSE and CBREAK: step past `pc` one
   * instruction at a time until the depth reaches 0, giving that index, or
   * None when the scan runs off the end.
   */
  function ScanForward(kind: ScanKind, prog: seq<Instr>, pc: nat, depth: nat): (r: Option<nat>)
    ensures r.Some? ==> (depth == 0 && r.value == pc) || pc < r.value < |prog|
    decreases |prog| - pc
  {
    if depth == 0 then Some(pc)
    else if pc + 1 >= |prog| then None
    else ScanForward(kind, prog, pc + 1, ScanDepth(kind, prog[pc + 1], depth))
  }

  /** How one instruction changes the depth of the backward scan of CONTINUE. */
  function BackDepth(i: Instr, depth: nat): nat
    requires depth > 0
  {
    if i.LOOP? then depth - 1 else if i.ENDLOOP? then depth + 1 else depth
  }

  /** The backward scan loop of CONTINUE: the index of the matching LOOP, or None below 0. */
  function ScanBackward(prog: seq<Instr>, pc: nat, depth: nat): (r: Option<nat>)
    requires pc <= |prog|
    ensures r.Some? ==> (depth == 0 && r.value == pc) || (r.value < pc && prog[r.value].LOOP?)
  {
    if depth == 0 then Some(pc)
    else if pc == 0 then None
    else ScanBackward(prog, pc - 1, BackDepth(prog[pc - 1], depth))
  }

  // ---------------------------------------------------------------- calls

  /** The result of binding parameters: the remaining stack and the new locals, or the name left without a value. */
  datatype Binding = Bound(stack: seq<Value>, locals: map<string, Value>)
                   | Missing(name: string, stack: seq<Value>)

  /** Pop one value per parameter, last parameter first, into `locals`. */
  function BindParams(stack: seq<Value>, names: seq<string>, locals: map<string, Value>): (r: Binding)
    ensures r.Bound? ==> |r.stack| + |names| == |stack|
    decreases |names|
  {
    if |names| == 0 then Bound(stack, locals)
    else if |stack| == 0 then Missing(Last(names), stack)
    else BindParams(DropLast(stack), DropLast(names), locals[Last(names) := Last(stack)])
  }

  /** The parameter names CALL binds: none when the function has no entry in the parameter table. */
  function ParamsOf(m: Machine, name: string): seq<string> {
    if name in m.functionParams then m.functionParams[name] else []
  }

  // ---------------------------------------------------------------- handlers

  /** What the handler for `instr` does to `m` (before the loop's `pc += 1`). */
  function Exec(m: Machine, instr: Instr): (r: Outcome)
    requires 0 <= m.pc < |m.program|
    ensures r.Next? ==> r.m.pc >= -1
  {
    if instr.CONSTI? then Next(m.(stack := m.stack + [IntValue(instr.value)]))
    else if instr.IsIntBinary() then ExecIntBinary(m, instr)
    else if instr.PRINTI? || instr.PRINTB? then ExecPrint(m, instr)
    else if instr.IF? then ExecBranch(m, SkipToElse)
    else if instr.CBREAK? then ExecBranch(m, SkipToEndloop)
    else if instr.ELSE? || instr.CONTINUE? then ExecJump(m, instr)
    else if instr.ENDIF? || instr.LOOP? || instr.ENDLOOP? then Next(m)
    else if instr.LOCAL_GET? || instr.LOCAL_SET? || instr.GLOBAL_GET? || instr.GLOBAL_SET? then ExecVariable(m, instr)
    else if instr.CALL? then ExecCall(m, instr.name)
    else if instr.RET? then ExecRet(m)
    else Stop(UnknownOpcode(instr), m)
  }

  /** PRINTI writes the popped integer; PRINTB writes the character with that code. */
  function ExecPrint(m: Machine, instr: Instr): Outcome
    requires instr.PRINTI? || instr.PRINTB?
  {
    if |m.stack| == 0 then Stop(StackUnderflow, m)
    else
      var v := Last(m.stack);
      var m1 := m.(stack := DropLast(m.stack));
      if v.tag != "int" then Stop(NotAnInteger, m1)
      else if instr.PRINTI? then Next(m1.(output := m.output + [PrintedInt(v.n)]))
      else if 0 <= v.n <= MaxCodePoint then Next(m1.(output := m.output + [PrintedChar(v.n)]))
      else Stop(BadCharCode, m1)
  }

  /** ELSE skips forward to its matching ENDIF; CONTINUE scans back to its matching LOOP. */
  function ExecJump(m: Machine, instr: Instr): (r: Outcome)
    requires 0 <= m.pc < |m.program|
    requires instr.ELSE? || instr.CONTINUE?
    ensures r.Next? ==> r.m.pc >= 0
  {
    if instr.ELSE? then
      var target := ScanForward(SkipToEndif, m.program, m.pc, 1);
      if target.Some? then Next(m.(pc := target.value))
      else Stop(UnbalancedControl, m.(pc := |m.program|))
    else
      var target := ScanBackward(m.program, m.pc, 1);
      if target.Some? then Next(m.(pc := target.value))
      else Stop(UnbalancedControl, m.(pc := -1))
  }

  /** LOCAL_GET / LOCAL_SET on the top locals frame, GLOBAL_GET / GLOBAL_SET on the globals. */
  function ExecVariable(m: Machine, instr: Instr): (r: Outcome)
    requires instr.LOCAL_GET? || instr.LOCAL_SET? || instr.GLOBAL_GET? || instr.GLOBAL_SET?
    ensures r.Next? ==> r.m.pc == m.pc
  {
    match instr
    case LOCAL_GET(name) =>
      if |m.localsStack| == 0 then Stop(NoLocals, m)
      else if name !in Last(m.localsStack) then Stop(UndefinedLocal(name), m)
      else Next(m.(stack := m.stack + [Last(m.localsStack)[name]]))
    case LOCAL_SET(name) =>
      if |m.localsStack| == 0 then Stop(NoLocals, m)
      else if |m.stack| == 0 then Stop(StackUnderflow, m)
      else
        var top := Last(m.localsStack);
        Next(m.(stack := DropLast(m.stack),
                localsStack := DropLast(m.localsStack) + [top[name := Last(m.stack)]]))
    case GLOBAL_GET(name) =>
      if name !in m.globals then Stop(UndefinedGlobal(name), m)
      else Next(m.(stack := m.stack + [m.globals[name]]))
    case GLOBAL_SET(name) =>
      if |m.stack| == 0 then Stop(NothingToStore(name), m)
      else Next(m.(globals := m.globals[name := Last(m.stack)], stack := DropLast(m.stack)))
  }

  /** CALL: save the return point, bind the parameters, push the frame, enter the callee at pc -1. */
  function ExecCall(m: Machine, name: string): (r: Outcome)
    requires m.pc >= 0
    ensures r.Next? ==> r.m.pc == -1
  {
    if name !in m.functions then Stop(UndefinedFunction(name), m)
    else
      var calls := m.callStack + [Frame(m.pc, m.program)];
      var bound := BindParams(m.stack, ParamsOf(m, name), map[]);
      if bound.Missing? then Stop(MissingArgument(bound.name), m.(callStack := calls, stack := bound.stack))
      else Next(m.(callStack := calls, stack := bound.stack, localsStack := m.localsStack + [bound.locals],
                   program := m.functions[name], pc := -1, currentFunction := Some(name)))
  }

  /** RET: stop the run when no call is active, otherwise return to the caller and drop its locals frame. */
  function ExecRet(m: Machine): (r: Outcome)
    requires m.pc >= 0
    ensures r.Next? && r.m.pc >= 0
  {
    if |m.callStack| == 0 then Next(m.(running := false))
    else
      var f := Last(m.callStack);
      Next(m.(pc := f.pc, program := f.program, callStack := DropLast(m.callStack),
              localsStack := if |m.localsStack| > 0 then DropLast(m.localsStack) else m.localsStack,
              currentFunction := None))
  }

  /**
   * IF and CBREAK: pop an integer; nonzero falls through, zero scans forward
   * to the matching marker (the scan kind says which).
   */
  function ExecBranch(m: Machine, kind: ScanKind): (r: Outcome)
    requires 0 <= m.pc < |m.program|
    requires kind != SkipToEndif
    ensures r.Next? ==> r.m.pc >= 0
  {
    if |m.stack| == 0 then Stop(StackUnderflow, m)
    else
      var v := Last(m.stack);
      var m1 := m.(stack := DropLast(m.stack));
      if v.tag != "int" then Stop(NotAnInteger, m1)
      else if v.n != 0 then Next(m1)
      else
        var target := ScanForward(kind, m.program, m.pc, 1);
        if target.Some? then Next(m1.(pc := target.value))
        else Stop(UnbalancedControl, m1.(pc := |m.program|))
  }

  /** One iteration of the run loop: fetch, dispatch, advance. */
  function Step(m: Machine): (r: Outcome)
    requires 0 <= m.pc < |m.program|
    ensures r.Next? ==> r.m.pc >= 0
  {
    match Exec(m, m.program[m.pc])
    case Next(m1) => Next(m1.(pc := m1.pc + 1))
    case Stop(f, m1) => Stop(f, m1)
  }

  /** How a bounded run ends. */
  datatype Halt = Finished(m: Machine) | Faulted(fault: Fault, m: Machine) | OutOfFuel(m: Machine)

  /** The run loop from the current pc, executing at most `fuel` instructions. */
  function RunLoop(m: Machine, fuel: nat): Halt
    requires m.pc >= 0
    decreases fuel
  {
    if !m.running || m.pc >= |m.program| then Finished(m)
    else if fuel == 0 then OutOfFuel(m)
    else match Step(m)
      case Stop(f, m1) => Faulted(f, m1)
      case Next(m1) => RunLoop(m1, fuel - 1)
  }

  /** One turn of the run loop, given the outcome of its step. */
  lemma RunLoopAfter(m: Machine, fuel: nat, o: Outcome)
    requires 0 <= m.pc < |m.program| && m.running && fuel > 0 && o == Step(m)
    ensures o.Stop? ==> RunLoop(m, fuel) == Faulted(o.fault, o.m)
    ensures o.Next? ==> o.m.pc >= 0 && RunLoop(m, fuel) == RunLoop(o.m, fuel - 1)
  {
  }

  /** `run()`: restart at pc 0 with `running` set, then loop. */
  function Run(m: Machine, fuel: nat): Halt {
    RunLoop(m.(pc := 0, running := true, currentFunction := None), fuel)
  }
}
