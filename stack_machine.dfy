/**
 * The stack machine of stack_machine.py as an object whose handlers update
 * its fields in place. Every handler is proved to do exactly what VmSpec.Exec
 * says, and `Run` to end exactly as VmSpec.Run says.
 */
module StackVm {
  import opened Wrappers
  import opened Opcodes
  import opened VmSpec

  /** A handler's effect seen as an outcome: a fault it raised, or none. */
  function AsOutcome(fault: Option<Fault>, m: Machine): Outcome {
    if fault.Some? then Stop(fault.value, m) else Next(m)
  }

  /** How `Run` returned: the loop condition failed, a handler raised, or the step budget ran out. */
  datatype Ending = Done | Crashed(fault: Fault) | Exhausted

  function AsHalt(e: Ending, m: Machine): Halt {
    match e
    case Done => Finished(m)
    case Crashed(f) => Faulted(f, m)
    case Exhausted => OutOfFuel(m)
  }

  class StackMachine {
    var stack: seq<Value>
    var globals: map<string, Value>
    var localsStack: seq<map<string, Value>>
    var callStack: seq<Frame>
    var functions: map<string, seq<Instr>>
    var functionParams: map<string, seq<string>>
    var pc: int
    var program: seq<Instr>
    var running: bool
    var currentFunction: Option<string>
    var output: seq<Printed>

    /** The machine's fields as a value. */
    function State(): Machine
      reads this
    {
      Machine(stack, globals, localsStack, callStack, functions, functionParams, pc, program,
              running, currentFunction, output)
    }

    /** An idle machine with nothing loaded. */
    constructor()
      ensures State() == Machine([], map[], [], [], map[], map[], 0, [], false, None, [])
    {
      stack := [];
      globals := map[];
      localsStack := [];
      callStack := [];
      functions := map[];
      functionParams := map[];
      pc := 0;
      program := [];
      running := false;
      currentFunction := None;
      output := [];
    }

    method LoadProgram(p: seq<Instr>)
      modifies this
      ensures State() == old(State()).(program := p)
    {
      program := p;
    }

    /** Install the function table; a missing parameter table means no function takes parameters. */
    method LoadFunctions(fs: map<string, seq<Instr>>, params: Option<map<string, seq<string>>>)
      modifies this
      ensures State() == old(State()).(functions := fs,
                                       functionParams := if params.Some? then params.value else map[])
    {
      functions := fs;
      if params.Some? {
        functionParams := params.value;
      } else {
        functionParams := map[];
      }
    }

    method OpIntBinary(instr: Instr) returns (fault: Option<Fault>)
      requires instr.IsIntBinary()
      modifies this
      ensures AsOutcome(fault, State()) == ExecIntBinary(old(State()), instr)
    {
      if |stack| == 0 {
        return Some(StackUnderflow);
      }
      var b := Last(stack);
      stack := DropLast(stack);
      if |stack| == 0 {
        return Some(StackUnderflow);
      }
      var a := Last(stack);
      stack := DropLast(stack);
      if !(a.tag == b.tag && b.tag == "int") {
        return Some(NotAnInteger);
      }
      if (instr.DIVI? || instr.MODI?) && b.n == 0 {
        return Some(DivisionByZero);
      }
      stack := stack + [IntValue(IntResult(instr, a.n, b.n))];
      return None;
    }

    method OpPrint(instr: Instr) returns (fault: Option<Fault>)
      requires instr.PRINTI? || instr.PRINTB?
      modifies this
      ensures AsOutcome(fault, State()) == ExecPrint(old(State()), instr)
    {
      if |stack| == 0 {
        return Some(StackUnderflow);
      }
      var v := Last(stack);
      stack := DropLast(stack);
      if v.tag != "int" {
        return Some(NotAnInteger);
      }
      if instr.PRINTI? {
        output := output + [PrintedInt(v.n)];
      } else if 0 <= v.n <= MaxCodePoint {
        output := output + [PrintedChar(v.n)];
      } else {
        return Some(BadCharCode);
      }
      return None;
    }

    /**
     * The forward scan shared by IF, ELSE and CBREAK: advance pc until the
     * depth reaches 0; on running off the end pc is left at the length of
     * the program and the scan fails.
     */
    method SkipForward(kind: ScanKind) returns (found: bool)
      requires 0 <= pc < |program|
      modifies this
      ensures found <==> ScanForward(kind, program, old(pc), 1).Some?
      ensures pc == if found then ScanForward(kind, program, old(pc), 1).value else |program|
      ensures State() == old(State()).(pc := pc)
    {
      var p: nat := pc;
      var depth: nat := 1;
      while depth > 0
        invariant p < |program|
        invariant ScanForward(kind, program, p, depth) == ScanForward(kind, program, old(pc), 1)
        decreases |program| - p
      {
        p := p + 1;
        if p >= |program| {
          pc := p;
          return false;
        }
        var op := program[p];
        match kind {
          case SkipToElse =>
            if op.IF? {
              depth := depth + 1;
            } else if op.ELSE? && depth == 1 {
              depth := 0;
            } else if op.ENDIF? {
              depth := depth - 1;
            }
          case SkipToEndif =>
            if op.IF? {
              depth := depth + 1;
            } else if op.ENDIF? {
              depth := depth - 1;
            }
          case SkipToEndloop =>
            if op.LOOP? {
              depth := depth + 1;
            } else if op.ENDLOOP? {
              depth := depth - 1;
            }
        }
      }
      pc := p;
      return true;
    }

    /** IF (kind SkipToElse) and CBREAK (kind SkipToEndloop): pop the condition, scan forward on 0. */
    method OpBranch(kind: ScanKind) returns (fault: Option<Fault>)
      requires 0 <= pc < |program| && kind != SkipToEndif
      modifies this
      ensures AsOutcome(fault, State()) == ExecBranch(old(State()), kind)
    {
      if |stack| == 0 {
        return Some(StackUnderflow);
      }
      var v := Last(stack);
      stack := DropLast(stack);
      if v.tag != "int" {
        return Some(NotAnInteger);
      }
      if v.n == 0 {
        var found := SkipForward(kind);
        if !found {
          return Some(UnbalancedControl);
        }
      }
      return None;
    }

    method OpElse() returns (fault: Option<Fault>)
      requires 0 <= pc < |program|
      modifies this
      ensures AsOutcome(fault, State()) == ExecJump(old(State()), ELSE)
    {
      var found := SkipForward(SkipToEndif);
      if !found {
        return Some(UnbalancedControl);
      }
      return None;
    }

    /** CONTINUE: move pc back until the matching LOOP; below 0 the scan fails with pc at -1. */
    method OpContinue() returns (fault: Option<Fault>)
      requires 0 <= pc < |program|
      modifies this
      ensures AsOutcome(fault, State()) == ExecJump(old(State()), CONTINUE)
    {
      var p: int := pc;
      var depth: nat := 1;
      while depth > 0
        invariant 0 <= p <= |program|
        invariant ScanBackward(program, p, depth) == ScanBackward(program, old(pc), 1)
        decreases p
      {
        p := p - 1;
        if p < 0 {
          pc := -1;
          return Some(UnbalancedControl);
        }
        var op := program[p];
        if op.LOOP? {
          depth := depth - 1;
        } else if op.ENDLOOP? {
          depth := depth + 1;
        }
      }
      pc := p;
      return None;
    }

    method OpVariable(instr: Instr) returns (fault: Option<Fault>)
      requires instr.LOCAL_GET? || instr.LOCAL_SET? || instr.GLOBAL_GET? || instr.GLOBAL_SET?
      modifies this
      ensures AsOutcome(fault, State()) == ExecVariable(old(State()), instr)
    {
      match instr
      case LOCAL_GET(name) =>
        if |localsStack| == 0 {
          return Some(NoLocals);
        }
        var top := Last(localsStack);
        if name !in top {
          return Some(UndefinedLocal(name));
        }
        stack := stack + [top[name]];
        return None;
      case LOCAL_SET(name) =>
        if |localsStack| == 0 {
          return Some(NoLocals);
        }
        if |stack| == 0 {
          return Some(StackUnderflow);
        }
        var value := Last(stack);
        stack := DropLast(stack);
        var top := Last(localsStack);
        localsStack := DropLast(localsStack) + [top[name := value]];
        return None;
      case GLOBAL_GET(name) =>
        if name !in globals {
          return Some(UndefinedGlobal(name));
        }
        stack := stack + [globals[name]];
        return None;
      case GLOBAL_SET(name) =>
        if |stack| == 0 {
          return Some(NothingToStore(name));
        }
        globals := globals[name := Last(stack)];
        stack := DropLast(stack);
        return None;
    }

    /** CALL: push the return frame, pop the arguments into a fresh locals frame, enter the callee. */
    method OpCall(name: string) returns (fault: Option<Fault>)
      requires pc >= 0
      modifies this
      ensures AsOutcome(fault, State()) == ExecCall(old(State()), name)
    {
      if name !in functions {
        return Some(UndefinedFunction(name));
      }
      fault := EnterFunction(name);
    }

    /** CALL of a defined function. */
    method EnterFunction(name: string) returns (fault: Option<Fault>)
      requires pc >= 0 && name in functions
      modifies this
      ensures AsOutcome(fault, State()) == ExecCall(old(State()), name)
    {
      var bound := PopArguments(stack, ParamsOf(State(), name));
      callStack := callStack + [Frame(pc, program)];
      stack := bound.stack;
      if bound.Missing? {
        return Some(MissingArgument(bound.name));
      }
      localsStack := localsStack + [bound.locals];
      program := functions[name];
      pc := -1;
      currentFunction := Some(name);
      return None;
    }

    /** CALL's argument loop: one value popped per parameter, last parameter first. */
    method PopArguments(st0: seq<Value>, names: seq<string>) returns (b: Binding)
      ensures b == BindParams(st0, names, map[])
    {
      var newLocals: map<string, Value> := map[];
      var st := st0;
      var i := |names|;
      assert names[..i] == names;
      while i > 0
        invariant 0 <= i <= |names|
        invariant BindParams(st0, names, map[]) == BindParams(st, names[..i], newLocals)
      {
        assert DropLast(names[..i]) == names[..i - 1];
        if |st| == 0 {
          return Missing(names[i - 1], st);
        }
        newLocals := newLocals[names[i - 1] := Last(st)];
        st := DropLast(st);
        i := i - 1;
      }
      return Bound(st, newLocals);
    }

    method OpRet()
      requires pc >= 0
      modifies this
      ensures Next(State()) == ExecRet(old(State()))
    {
      if |callStack| == 0 {
        running := false;
        return;
      }
      var f := Last(callStack);
      callStack := DropLast(callStack);
      pc := f.pc;
      program := f.program;
      if |localsStack| > 0 {
        localsStack := DropLast(localsStack);
      }
      currentFunction := None;
    }

    /** Look up the handler for `instr` and run it; an opcode with no handler is a fault. */
    method Execute(instr: Instr) returns (fault: Option<Fault>)
      requires 0 <= pc < |program|
      modifies this
      ensures AsOutcome(fault, State()) == Exec(old(State()), instr)
    {
      if instr.CONSTI? {
        stack := stack + [IntValue(instr.value)];
        fault := None;
      } else if instr.IsIntBinary() {
        fault := OpIntBinary(instr);
      } else if instr.PRINTI? || instr.PRINTB? {
        fault := OpPrint(instr);
      } else if instr.IF? {
        fault := OpBranch(SkipToElse);
      } else if instr.CBREAK? {
        fault := OpBranch(SkipToEndloop);
      } else if instr.ELSE? {
        fault := OpElse();
      } else if instr.CONTINUE? {
        fault := OpContinue();
      } else if instr.ENDIF? || instr.LOOP? || instr.ENDLOOP? {
        fault := None;
      } else if instr.LOCAL_GET? || instr.LOCAL_SET? || instr.GLOBAL_GET? || instr.GLOBAL_SET? {
        fault := OpVariable(instr);
      } else if instr.CALL? {
        fault := OpCall(instr.name);
      } else if instr.RET? {
        OpRet();
        fault := None;
      } else {
        fault := Some(UnknownOpcode(instr));
      }
    }

    /** One iteration of the run loop: fetch the instruction at pc, dispatch it, advance pc. */
    method Cycle() returns (fault: Option<Fault>)
      requires 0 <= pc < |program|
      modifies this
      ensures AsOutcome(fault, State()) == Step(old(State()))
    {
      fault := Execute(program[pc]);
      if fault.None? {
        pc := pc + 1;
      }
    }

    /** One turn of the run loop with `budget` instructions left: a run that was to end as `target` still does. */
    method Turn(budget: nat, ghost target: Halt) returns (fault: Option<Fault>, left: nat)
      requires 0 <= pc < |program| && running && budget > 0
      requires RunLoop(State(), budget) == target
      modifies this
      ensures left == budget - 1
      ensures fault.Some? ==> target == Faulted(fault.value, State())
      ensures fault.None? ==> pc >= 0 && RunLoop(State(), left) == target
    {
      ghost var before := State();
      left := budget - 1;
      fault := Cycle();
      ghost var o := AsOutcome(fault, State());
      RunLoopAfter(before, budget, o);
      if fault.Some? {
        assert o == Stop(fault.value, State());
      } else {
        assert o == Next(State());
      }
    }

    /**
     * `run()`: restart at pc 0 and cycle while the machine is running and
     * pc is inside the program, for at most `fuel` instructions.
     */
    method Run(fuel: nat) returns (ending: Ending)
      modifies this
      ensures AsHalt(ending, State()) == VmSpec.Run(old(State()), fuel)
    {
      ghost var target := VmSpec.Run(State(), fuel);
      pc := 0;
      running := true;
      currentFunction := None;
      assert State() == old(State()).(pc := 0, running := true, currentFunction := None);
      var budget := fuel;
      while running && pc < |program|
        invariant pc >= 0
        invariant RunLoop(State(), budget) == target
        decreases budget
      {
        if budget == 0 {
          return Exhausted;
        }
        var fault;
        fault, budget := Turn(budget, target);
        if fault.Some? {
          return Crashed(fault.value);
        }
      }
      return Done;
    }
  }
}
