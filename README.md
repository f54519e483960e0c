# GoxLang compiler core, modelled in Dafny

GoxLang is a small imperative language whose Python compiler turns a token
stream into a syntax tree, checks that tree against a tree of symbol tables,
lowers it to a stack-machine IR, and runs the IR on a stack machine. This
project models those stages as written and proves what each of them does:

- **Syntax tree** (`ast.dfy`, module `Ast`). The node records are datatypes.
  The `type` attribute of literals and locations is `Ast.TypeAttr`.
- **Type system** (`typesys.dfy`, module `TypeSys`). Holds the binary and unary operator tables.
- **Symbol table** (`scopes.dfy`, `symtab.dfy`).
  - `Symbols.Symtab` is a class. Its `entries` and `children` are updated in place, and its `get` and `find_scope_of_type` walk the parent chain.
  - Module `Scopes` gives the value view of a chain of tables (`Lookup`, `FirstOfType`). The class is proved to agree with it.
- **Semantic checker** (`checkspec.dfy`, `checker.dfy`, `checkprops.dfy`).
  - `CheckSpec` is a reference definition over value scopes.
  - `Checking.Checker` is the visitor over the live `Symtab` tree. Each of its visits is proved equal to the reference.
  - `CheckProps` proves what the checker guarantees.
- **IR generator** (`opcodes.dfy`, `irspec.dfy`, `ircode.dfy`, `irprops.dfy`).
  - `IrSpec` says what each node emits.
  - The `IRModule`, `IRFunction` and `IRCode` classes of module `IrCode` are proved to emit exactly that.
  - `IrProps` proves that all generated code is well nested for the machine's scans, and what the module's function table holds.
- **Stack machine** (`vmspec.dfy`, `stack_machine.dfy`, `vmprops.dfy`, `nesting.dfy`, `looplowering.dfy`).
  - `VmSpec` gives each opcode handler and the run loop as functions.
  - `StackVm.StackMachine` updates its fields in place. Every handler is proved to equal its `VmSpec` function.
  - `VmProps`, `Nesting` and `LoopLowering` prove the call discipline and the integer-tag invariant. They also prove where the depth-counting scans land, and how the lowered `while` loop actually runs.
- **Parser** (`parserspec.dfy`, `parser.dfy`, `parserprops.dfy`). A recursive-descent parser over abstract tokens.
  - `ParserSpec` is its reference definition.
  - `Parsing.Parser` is the class with the `current` cursor. Each method is proved to follow the reference.
  - `ParserProps` proves the shapes it builds.

The source's quirks are modelled as written, and lemmas exhibit them:
- `break;` is rejected, because BREAK does not consume the semicolon.
- `func f()` asks for a second `)`.
- `is_const` is always false.
- The parser spells the logical operators `&&`/`||`, which the type table does not know.
- A `while` nested in the same table fails at `add('in_while')`.
- The lowered `while` leaves the loop when its test is true.
- ENDLOOP never jumps back.

Where the source's own docstrings and its code disagree, the model follows the code:
- The `Symtab` docstring (semantic/symtab.py:12-18) describes nested tables whose lookups walk up through the parents for lexical scope. `add` (semantic/symtab.py:68-80) checks only the current table, so on its own it would let a nested scope shadow an outer name. The checker asks `get` (which walks outward) before every declaration, so shadowing is rejected (`CheckProps.ShadowingRejected`).
- The docstrings of `SymbolDefinedError` and `SymbolConflictError` (semantic/symtab.py:20-34) and the test in `add` (semantic/symtab.py:75-79) distinguish a type conflict from a redefinition. The declaration nodes the checker stores have no `dtype` attribute, so any repeated `add` fails.

Failures are values: `Result`/`Option` with one error kind per raise site. Printing becomes an output trace on the machine. Python's `//` and `%` are modelled as floor division (`VmSpec.FloorDiv`, `VmSpec.FloorMod`).

## Model

The reference functions of `CheckSpec`, `IrSpec` and `VmSpec` that carry no contract of their own are stated through the class members proved equal to them (the rows below that say "equals …") and through the lemmas about them.

| member | source | states |
|---|---|---|
| Ast.LiteralTypesFixed | parser/modelo.py:215-245 | each literal class has a fixed `type` ('int', 'float', 'bool', 'char'), whatever its value |
| TypeSys.CheckBinop | semantic/typesys.py:69-71 | a result exists exactly when the (left, op, right) key is in the table; it is then one of the four type names, and both operands have the same type |
| TypeSys.CheckUnaryop | semantic/typesys.py:84-85 | a result exists exactly when (op, type) is in the table, and it is the operand's own type |
| TypeSys.MixedOperandsUndefined | semantic/typesys.py:23-63 | no binary operator is defined for operands of different types |
| TypeSys.ArithmeticTable | semantic/typesys.py:25-41 | PLUS, MINUS, TIMES, DIVIDE are defined exactly on int and float, and keep the type |
| TypeSys.ComparisonTable | semantic/typesys.py:30-62 | the six comparisons yield bool on int, float and char; on bool only EQ and NE are defined |
| TypeSys.BoolAndCharTable | semantic/typesys.py:50-62 | bool has LAND, LOR, EQ, NE; char has only the comparisons |
| TypeSys.LogicalSpellingsUndefined | semantic/typesys.py:51-52 | the keys are 'LAND'/'LOR', so the operator strings '&&' and '\|\|' have no entry for any types |
| TypeSys.UnaryTable | semantic/typesys.py:73-82 | the six unary entries, GROW only on int and NOT only on bool |
| Scopes.Lookup | semantic/symtab.py:90-100 | a name is found exactly when some scope of the chain binds it |
| Scopes.FirstOfType | semantic/symtab.py:51-57 | the index found is of kind `t`, and no scope before it is; None means no scope of that kind |
| Scopes.LookupIsInnermost | semantic/symtab.py:96-99 | `get` returns the binding of the innermost scope that binds the name |
| Scopes.LookupShadowed | semantic/symtab.py:96-99 | rebinding the innermost scope leaves what the outer scopes bind visible for every other name |
| Symbols.Symtab.constructor | semantic/symtab.py:38-49 | a new table has no entries and no children, and it is appended to its parent's children; the parent's bindings and chain are unchanged |
| Symbols.Symtab.ChainView | semantic/symtab.py:96-100 | the chain `get` walks is never empty and starts at this table's own bindings |
| Symbols.Symtab.Add | semantic/symtab.py:68-80 | succeeds exactly when the name is not in this table, and then binds it; otherwise it fails and changes nothing |
| Symbols.Symtab.Remove | semantic/symtab.py:83-87 | succeeds exactly when the name is in this table, and then removes only it; otherwise it fails |
| Symbols.Symtab.Get | semantic/symtab.py:90-100 | equals `Lookup` over the chain of this table and its ancestors, innermost first |
| Symbols.Symtab.ScopeOfTypeIsNearest | semantic/symtab.py:51-57 | the nearest table of a kind is the one the value chain names, and its own chain is the rest of the chain |
| Symbols.Symtab.FindScopeOfType | semantic/symtab.py:51-57 | the loop returns the nearest table of the kind, this one included, or null |
| Symbols.Symtab.FindScopeOfTypeNameChild | semantic/symtab.py:59-66 | returns this table iff it qualifies (right kind, name bound to a true value); otherwise the first qualifying direct child, else null; grandchildren are never examined |
| Symbols.Views | semantic/symtab.py:48 | one scope value per child table |
| Symbols.ViewsAppend | semantic/symtab.py:48 | the views of children appended in order are the views of each part, in order |
| CheckSpec.CheckArgs | semantic/check.py:257-262 | on success there is one checked argument per argument |
| CheckSpec.CheckBlock | semantic/check.py:62-63 | on success every statement of the block has been checked |
| CheckSpec.CheckTopLevel | semantic/check.py:31-36 | one checked statement per top-level statement, and at most one error each |
| Checking.Checker.constructor | semantic/check.py:23-24 | starts with no errors |
| Checking.Checker.Check | semantic/check.py:26-49 | every top-level statement is checked in a new global table; the result is an error exactly when some statement failed, carrying all their errors in order; otherwise the table, with the bindings and child scopes the reference definition gives |
| Checking.Checker.SafeAccept | semantic/check.py:51-55 | a failing statement adds its one error and the checker goes on; the table ends as the reference says |
| Checking.Checker.VisitProgram | semantic/check.py:57-63 | the statements in order in one table, stopping at the first failure, as `CheckBlock` |
| Checking.Checker.VisitStmt | semantic/check.py:65-207 | any statement: the error, the innermost table's bindings and the child tables created are those of `CheckStmt` |
| Checking.Checker.VisitSimple | semantic/check.py:66-143 | the statements that only read the tables agree with `CheckStmt` |
| Checking.Checker.VisitBlock | semantic/check.py:97-104 | a statement list in one table agrees with `CheckBlock`, and only the innermost table changes |
| Checking.Checker.VisitNext | semantic/check.py:119-120 | one more statement of a list moves the split of the list's reference outcome one statement on |
| Checking.Checker.VisitExpr | semantic/check.py:145-276 | the type of an expression (or its error) and the expression with its locations' types filled in, as `CheckExpr` |
| Checking.Checker.VisitCall | semantic/check.py:246-263 | as `CheckCall`: defined name, equal arity, each argument's type equals its parameter's; the type is the return type |
| Checking.Checker.VisitArgs | semantic/check.py:259-262 | the arguments are checked left to right, as `CheckArgs`: the first one whose type differs from its parameter's fails the call |
| Checking.Checker.VisitAssignment | semantic/check.py:66-77 | as `CheckAssignment`: location and value types must be equal |
| Checking.Checker.VisitPrint | semantic/check.py:79-84 | as `CheckPrinted`: only the printed expression is checked |
| Checking.Checker.VisitIf | semantic/check.py:86-104 | as `CheckIf`: the test must be bool; both branches are checked in the same table |
| Checking.Checker.VisitWhile | semantic/check.py:106-122 | as `CheckWhile`: the test must be bool, then 'in_while' is added, the body checked, and the marker removed |
| Checking.Checker.VisitBreakContinue | semantic/check.py:124-130 | as `CheckInWhile`: 'in_while' must resolve to a true value |
| Checking.Checker.VisitReturn | semantic/check.py:132-143 | as `CheckReturn`: a function scope must enclose it, and a value's type must equal that scope's 'return_type' |
| Checking.Checker.VisitVariable | semantic/check.py:162-173 | as `CheckVariable`: rejected when the name resolves outward or the declared and initial types differ; else bound here |
| Checking.Checker.VisitParameter | semantic/check.py:200-207 | as `CheckParameter`: rejected when the name resolves outward, else bound here |
| Checking.Checker.VisitFunction | semantic/check.py:175-198 | as `CheckFunction`: the name is bound here, and one child table of kind "function" is created and its body checked |
| Checking.Checker.OpenFunction | semantic/check.py:186-198 | the function's table is a new child of the current one holding the entries `CheckFunctionScope` gives |
| Checking.Checker.VisitFunctionScope | semantic/check.py:187-198 | 'return_type' and the parameters are added, then the body is checked; a declared return type needs a top-level Return |
| Checking.Checker.BindParameters | semantic/check.py:188-189 | the parameters are added in order; a repeated name fails at `add` |
| Checking.Checker.VisitBody | semantic/check.py:190-195 | the body's statements are checked in order in the function's table, noting a top-level Return |
| CheckProps.StmtKeepsBindings | semantic/check.py:117-122 | no statement changes or removes a binding already present in its table |
| CheckProps.IfKeepsBindings | semantic/check.py:86-104 | an If keeps every binding already present |
| CheckProps.VariableKeepsBindings | semantic/check.py:163-175 | a variable declaration only adds its new name; every earlier binding keeps its value |
| CheckProps.FunctionKeepsBindings | semantic/check.py:176-200 | a function declaration only adds its own name to the table it is declared in |
| CheckProps.WhileKeepsBindings | semantic/check.py:106-122 | a While keeps every binding already present |
| CheckProps.BlockKeepsBindings | semantic/check.py:62-63 | a statement list keeps every binding already present |
| CheckProps.WhileMarkerLifeCycle | semantic/check.py:116-122 | a passing body leaves no marker; a failing body fails the While with its error and leaves the marker behind |
| CheckProps.WhileInMarkedTableFails | semantic/check.py:117 | a While in a table already holding 'in_while' always fails |
| CheckProps.BlockWithWhileFails | semantic/check.py:117 | a block in a marked table that contains a While fails |
| CheckProps.NestedWhileFails | semantic/check.py:117-120 | a While directly inside a While's body makes the outer While fail |
| CheckProps.BreakNeedsMarker | semantic/check.py:124-130 | Break and Continue pass exactly when 'in_while' resolves to a true value |
| CheckProps.AssignmentRule | semantic/check.py:66-77 | an assignment passes exactly when both sides check and their types are equal |
| CheckProps.TestMustBeBool | semantic/check.py:93-95 | a passing If or While has a test of type 'bool' |
| CheckProps.ReturnNeedsFunction | semantic/check.py:137-138 | a Return with no enclosing function scope fails |
| CheckProps.ReturnTypeRule | semantic/check.py:139-143 | inside a function scope, a Return with a value passes exactly when the value checks and its type equals the nearest function scope's 'return_type'; otherwise it fails with the value's error or with the mismatch |
| CheckProps.BareReturnPasses | semantic/check.py:137-139 | inside a function scope, a Return without a value passes and binds nothing |
| CheckProps.TopLevelReturnFails | semantic/check.py:137-138 | every Return at the top level fails |
| CheckProps.VariableRule | semantic/check.py:162-173 | a Variable passes exactly when its name resolves nowhere, is not in its own table, and any initializer checks with a type equal to a declared type; it is then bound in its own table only. A resolvable name fails as already defined, an initializer's error is reported, and a declared type differing from the initializer's fails with the mismatch |
| CheckProps.ShadowingRejected | semantic/check.py:167-168 | a name bound in an outer scope cannot be declared in an inner one |
| CheckProps.ArgsRule | semantic/check.py:259-262 | the arguments check exactly when each checks and has its parameter's type |
| CheckProps.CallRule | semantic/check.py:246-263 | a call checks exactly when the name is a function of matching arity and argument types; its type is the return type |
| CheckProps.AddParamsRule | semantic/check.py:188-189 | adding the parameters succeeds exactly when their names are fresh and pairwise different, and binds each to its type |
| CheckProps.FunctionScopeRule | semantic/check.py:183-189 | a passing declaration binds the name and creates exactly one function scope holding 'return_type' and the parameters |
| CheckProps.ScopeBindsSignature | semantic/check.py:186-189 | the function scope still binds its signature after the body |
| CheckProps.ReturnTypeParameterRejected | semantic/check.py:187-189 | a parameter named 'return_type' is always rejected |
| CheckProps.MissingReturnRule | semantic/check.py:183-198 | for a fresh name: a failure binding the parameters or checking the body is reported; otherwise the function fails with MissingReturn exactly when it declares a return type and none of the body's own statements is a Return |
| CheckProps.NestedReturnIsMissing | semantic/check.py:191-198 | a Return nested in an If does not count for the return check: `func f() int { if true { return 1; } }` fails with MissingReturn |
| IrSpec.TypeMap | ircode.py:262-267 | defined exactly on the four type names; 'float' maps to 'F', the others to 'I' |
| IrSpec.ParamNames | ircode.py:452 | the parameter names in order |
| IrSpec.ParamTypes | ircode.py:453 | on success one IR type per parameter |
| IrCode.IRModule.constructor | ircode.py:205-208 | a module starts with no functions and no globals |
| IrCode.IRFunction.constructor | ircode.py:232-244 | a new function with empty locals and code, registered in its module under its name, replacing an earlier one |
| IrCode.IRFunction.NewLocal | ircode.py:246-247 | declares or redeclares one local; the code is unchanged |
| IrCode.IRFunction.Append | ircode.py:249-250 | adds one instruction at the end; the locals are unchanged |
| IrCode.RegisteredIsRegistry | ircode.py:236 | the live function table and the value registry agree name by name |
| IrCode.IRCode.constructor | ircode.py:321-322 | the generator keeps the table it is given |
| IrCode.IRCode.Gencode | ircode.py:324-343 | the module built has exactly the globals, function names and function values of `IrSpec.Gencode`, or its error |
| IrCode.IRCode.Generate | ircode.py:332-343 | the entry 'main' is created first, the top level is generated into it, then the tail; the result is as `IrSpec.Gencode` |
| IrCode.IRCode.FinishEntry | ircode.py:338-343 | once the top level is in 'main', the tail CALL _actual_main or CONSTI 0, then RET, completes exactly the module `IrSpec.Gencode` describes |
| IrCode.EntryTail | ircode.py:338-342 | `CALL _actual_main` when the module has that function, else `CONSTI 0`, then RET |
| IrCode.IRCode.FindFunctionScope | ircode.py:352 | a scope is found exactly when the table itself or a direct child is a function scope binding the name to a true value |
| IrCode.IRCode.StoreInstr | ircode.py:350-356 | LOCAL_SET for a local name, GLOBAL_SET otherwise |
| IrCode.IRCode.LoadInstr | ircode.py:505-512 | LOCAL_GET for a local name, GLOBAL_GET otherwise |
| IrCode.IRCode.ExpressionType | ircode.py:372-391 | the expression's type as `_get_expression_type` computes it, or its error |
| IrCode.IRCode.VisitExpr | ircode.py:462-512 | appends exactly the expression's post-order code, or fails with its error; locals unchanged |
| IrCode.IRCode.VisitBinOp | ircode.py:477-483 | left code, right code, then the opcode for the two operand types |
| IrCode.IRCode.VisitOperator | ircode.py:481-483 | appends the opcode `_binop_code` gives for the operand types, or fails with its error when the triple has none |
| IrCode.IRCode.VisitOperands | ircode.py:479-480 | the left operand's code, then the right's |
| IrCode.IRCode.BinopInstrOf | ircode.py:481-483 | the `_binop_code` entry for the operand types, or the missing-key error |
| IrCode.IRCode.VisitUnaryOp | ircode.py:485-489 | the operand's code, then the `_unaryop_code` instructions for its type |
| IrCode.IRCode.VisitTypeCast | ircode.py:491-497 | the operand's code, then ITOF or FTOI when the types call for it |
| IrCode.IRCode.VisitCall | ircode.py:499-503 | the arguments' code left to right, then CALL |
| IrCode.IRCode.VisitArgs | ircode.py:501-502 | each argument's code in turn, stopping at the first error |
| IrCode.IRCode.VisitStmt | ircode.py:345-458 | the code, locals, globals and functions created are exactly those of `StmtEmit`, or its error |
| IrCode.IRCode.VisitBlock | ircode.py:336-337 | statements in order into one function, as `BlockEmit` |
| IrCode.IRCode.VisitBlockNext | ircode.py:336-337 | one more statement either fails the whole list with its error or extends what the list has generated so far by exactly its `StmtEmit` |
| IrCode.IRCode.VisitAssignment | ircode.py:347-358 | the value, then LOCAL_SET, GLOBAL_SET or POKEI |
| IrCode.IRCode.VisitPrint | ircode.py:360-370 | the value, then PRINTI, PRINTF or PRINTB by its type |
| IrCode.IRCode.VisitReturn | ircode.py:424-428 | the value when present, then RET |
| IrCode.IRCode.VisitIf | ircode.py:393-403 | test, IF, consequence, ELSE, alternative, ENDIF |
| IrCode.IRCode.VisitIfRest | ircode.py:397-403 | the consequence, ELSE, then the alternative and ENDIF |
| IrCode.IRCode.VisitElsePart | ircode.py:399-403 | after the consequence: ELSE, the alternative and ENDIF; together they did what `IfRest` describes, and the functions created during the consequence keep their values |
| IrCode.IRCode.VisitElse | ircode.py:400-403 | the alternative, then ENDIF |
| IrCode.IRCode.VisitAlternative | ircode.py:400-402 | the alternative's statements when it is a non-empty else, otherwise nothing |
| IrCode.IRCode.VisitWhile | ircode.py:405-414 | LOOP, CONSTI 1, test, SUBI, CBREAK, body, ENDLOOP |
| IrCode.IRCode.VisitLoopHead | ircode.py:407-411 | LOOP, CONSTI 1, the test's code, SUBI, CBREAK |
| IrCode.IRCode.VisitWhileRest | ircode.py:412-414 | the body, then ENDLOOP |
| IrCode.IRCode.VisitVariable | ircode.py:432-446 | with a value: the value, then a local store and local, or a global store and module global, with the mapped type; without one: nothing |
| IrCode.IRCode.VisitFunction | ircode.py:448-458 | a new registered function with the mapped signature, its body generated into it; nothing appended to the current function |
| IrCode.IRCode.VisitFunctionBody | ircode.py:456-458 | the body goes into the new function; the current function gains nothing, and the functions created are the declaration's `StmtEmit` functions |
| IrProps.BinopCodeUnmarked | ircode.py:277-306 | no binary opcode is a structured marker |
| IrProps.BinopInstrUnmarked | ircode.py:481-483 | the opcode chosen for a binary operation is never a marker |
| IrProps.UnaryopCodeUnmarked | ircode.py:307-314 | the unary lowerings contain no marker |
| IrProps.ExprCodeUnmarked | ircode.py:462-512 | expression code is straight-line: no IF, ELSE, ENDIF, LOOP or ENDLOOP |
| IrProps.ArgsCodeUnmarked | ircode.py:499-503 | arguments' code contains no marker |
| IrProps.UnmarkedThenWellNested | ircode.py:360-370 | straight-line code followed by one non-marker instruction is well nested |
| IrProps.StmtEmitWellNested | ircode.py:345-458 | every statement's code, and every function it creates, is well nested for all four scans of the machine |
| IrProps.IfEmitWellNested | ircode.py:393-403 | the code of an `if` is well nested for all four scans |
| IrProps.WhileEmitWellNested | ircode.py:405-414 | the code of a `while` is well nested for all four scans |
| IrProps.BlockEmitWellNested | ircode.py:397-413 | the same for statement lists |
| IrProps.RegistryLastWins | ircode.py:236 | a name is registered exactly when some created function has it, and holds the last one created |
| IrProps.RegistryNames | ircode.py:236 | a name is in the registry exactly when some registered function has it |
| IrProps.RegistryAfter | ircode.py:236 | functions registered later win over an earlier one of the same name |
| IrProps.GencodeNames | ircode.py:334-337 | the module's names are 'main' and the names of the functions the program defines |
| IrProps.GencodeEntry | ircode.py:335-342 | without a user 'main', the module's 'main' is the entry: no parameters, type 'I', top-level code, CALL _actual_main exactly when defined else CONSTI 0, then RET |
| IrProps.GencodeWellNested | ircode.py:324-343 | every function of the generated module has well-nested code |
| IrProps.ParamTypesRule | ircode.py:453 | mapping succeeds exactly when every parameter has one of the four types; 'float' gives 'F', the rest 'I' |
| IrProps.FunctionRecord | ircode.py:448-458 | a declaration appends nothing and creates one function first, with the parameters' names and mapped types and the body's locals and code |
| IrProps.TwoIntParamsSignature | ircode.py:451-454 | `(a int, b int) int` becomes ['a','b'], ['I','I'], 'I' |
| IrProps.LocalOfAnyFunctionIsLocalEverywhere | ircode.py:437-441 | a name bound in any function's scope is stored with LOCAL_SET and declared local, even at top level |
| IrProps.UninitializedVariableEmitsNothing | ircode.py:432-434 | a declaration without a value generates nothing |
| IrProps.GlobalVariableExample | ircode.py:443-446 | `var result int = 1;` outside functions is CONSTI 1, GLOBAL_SET result, and a global of type 'I' |
| IrProps.ReturnAndPrintExamples | ircode.py:424-428 | `return 42;` is CONSTI 42, RET and `print 42;` is CONSTI 42, PRINTI |
| VmSpec.FloorDivision | stack_machine.py:92-110 | `//` and `%` rebuild the dividend, and the remainder has the divisor's sign |
| VmSpec.ScanForward | stack_machine.py:177-232 | a scan result is past the start and inside the program |
| VmSpec.ScanBackward | stack_machine.py:234-245 | a backward scan stops on a LOOP before the start |
| VmSpec.BindParams | stack_machine.py:276-280 | a successful binding pops exactly one value per parameter |
| VmSpec.Exec | stack_machine.py:57-61 | a handler that succeeds leaves pc at -1 or later |
| VmSpec.ExecJump | stack_machine.py:197-245 | ELSE and CONTINUE that succeed leave pc inside the program |
| VmSpec.ExecVariable | stack_machine.py:251-307 | variable opcodes never move pc |
| VmSpec.ExecCall | stack_machine.py:266-285 | a successful CALL enters the callee at pc -1 |
| VmSpec.ExecRet | stack_machine.py:287-296 | RET never faults |
| VmSpec.ExecBranch | stack_machine.py:177-232 | IF and CBREAK that succeed leave pc inside the program |
| VmSpec.Step | stack_machine.py:48-62 | a successful step leaves pc non-negative |
| StackVm.StackMachine.constructor | stack_machine.py:2-14 | an idle machine: empty stacks and tables, pc 0, not running |
| StackVm.StackMachine.LoadProgram | stack_machine.py:20-25 | only the program changes |
| StackVm.StackMachine.LoadFunctions | stack_machine.py:27-42 | installs the functions; a missing parameter table becomes empty |
| StackVm.StackMachine.OpIntBinary | stack_machine.py:68-159 | the machine after the opcode, or its fault, equals `ExecIntBinary` |
| StackVm.StackMachine.OpPrint | stack_machine.py:162-174 | equals `ExecPrint` |
| StackVm.StackMachine.SkipForward | stack_machine.py:182-193 | the scan loop stops where `ScanForward` says, or at the end when it runs off |
| StackVm.StackMachine.OpBranch | stack_machine.py:177-232 | IF and CBREAK equal `ExecBranch` |
| StackVm.StackMachine.OpElse | stack_machine.py:197-208 | equals `ExecJump(ELSE)` |
| StackVm.StackMachine.OpContinue | stack_machine.py:234-245 | the backward loop equals `ExecJump(CONTINUE)` |
| StackVm.StackMachine.OpVariable | stack_machine.py:251-307 | equals `ExecVariable` |
| StackVm.StackMachine.OpCall | stack_machine.py:266-285 | equals `ExecCall` |
| StackVm.StackMachine.EnterFunction | stack_machine.py:270-285 | a CALL of a defined function equals `ExecCall` |
| StackVm.StackMachine.PopArguments | stack_machine.py:274-280 | the argument loop equals `BindParams` |
| StackVm.StackMachine.OpRet | stack_machine.py:287-296 | equals `ExecRet` |
| StackVm.StackMachine.Execute | stack_machine.py:57-61 | dispatch equals `Exec`; an opcode without a handler faults |
| StackVm.StackMachine.Cycle | stack_machine.py:49-62 | one iteration equals `Step` |
| StackVm.StackMachine.Turn | stack_machine.py:48-62 | one turn of the loop keeps the run on course: a fault is how the run ends, otherwise the rest of the run with one instruction fewer ends the same way |
| StackVm.StackMachine.Run | stack_machine.py:44-62 | the run ends as `VmSpec.Run` says for the same step budget |
| VmProps.IntBinaryPops | stack_machine.py:68-159 | pops b then a, pushes ('int', a op b) |
| VmProps.ComparisonsPushBooleans | stack_machine.py:113-159 | comparisons push 1 or 0 |
| VmProps.IntBinaryRejectsOtherTags | stack_machine.py:68-159 | a non-int operand faults after both pops |
| VmProps.DivisionByZeroPushesNothing | stack_machine.py:92-110 | a zero divisor faults with both operands popped and nothing pushed |
| VmProps.BindParamsInOrder | stack_machine.py:276-280 | popping in reverse parameter order binds the i-th parameter to the i-th argument and consumes only the arguments |
| VmProps.CallBindsLeftToRight | stack_machine.py:266-285 | CALL saves the return point, pushes one locals frame binding each parameter to its argument, and enters the callee at 0 |
| VmProps.RetReturnsToCaller | stack_machine.py:287-296 | RET resumes after the CALL, drops the callee's locals, leaves the operand stack |
| VmProps.CallThenRetRestores | stack_machine.py:266-296 | a CALL followed by the callee's RET restores the caller's program, stacks and call depth |
| VmProps.OutermostRetStops | stack_machine.py:287-290 | RET with no active call stops the run |
| VmProps.BindParamsKeepsTags | stack_machine.py:276-280 | binding int-tagged arguments leaves only int-tagged values on the stack and in the new locals |
| VmProps.IntBinaryKeepsIntegers | stack_machine.py:68-159 | on an all-int machine the integer opcodes never raise the type error and push only ints |
| VmProps.PrintKeepsIntegers | stack_machine.py:162-174 | PRINTI and PRINTB on an all-int machine keep it all-int |
| VmProps.BranchKeepsIntegers | stack_machine.py:177-232 | IF and CBREAK on an all-int machine keep it all-int |
| VmProps.VariableKeepsIntegers | stack_machine.py:251-307 | the local and global reads and writes keep an all-int machine all-int |
| VmProps.CallKeepsIntegers | stack_machine.py:266-285 | CALL keeps an all-int machine all-int, its new frame included |
| VmProps.RetKeepsIntegers | stack_machine.py:287-296 | RET keeps an all-int machine all-int |
| VmProps.StepKeepsIntegers | stack_machine.py:65-307 | when every value is tagged 'int', a step keeps that and never raises the integer-type error |
| VmProps.RunLoopMonotone | stack_machine.py:48 | more steps never change a run that already ended |
| Nesting.WalkAppend | stack_machine.py:182-193 | a forward walk over two pieces is the walk over each in turn |
| Nesting.BackWalkAppend | stack_machine.py:236-245 | the backward walk over two pieces is the walk over each in turn, last first |
| Nesting.WellNestedAppend | stack_machine.py:177-245 | well-nested pieces concatenate to well-nested code |
| Nesting.UnmarkedWellNested | stack_machine.py:177-245 | code without markers is well nested |
| Nesting.IfBlockWellNested | ircode.py:393-403 | the if lowering of well-nested parts is well nested |
| Nesting.LoopWrapWellNested | stack_machine.py:216-245 | LOOP … ENDLOOP around well-nested code is well nested |
| Nesting.WhileBlockWellNested | ircode.py:405-414 | the while lowering of well-nested parts is well nested |
| Nesting.JumpWellNested | ircode.py:416-428 | a lone CBREAK, CONTINUE or RET is well nested |
| Nesting.ScanSkips | stack_machine.py:182-193 | a forward scan steps over balanced code, coming out at the same depth |
| Nesting.ScanBackSkips | stack_machine.py:236-245 | the backward scan steps over back-balanced code |
| Nesting.IfFindsElse | stack_machine.py:177-193 | IF on 0 lands on the ELSE after its balanced consequence |
| Nesting.ElseFindsEndif | stack_machine.py:197-208 | ELSE lands on the ENDIF after its balanced alternative |
| Nesting.CBreakFindsEndloop | stack_machine.py:216-230 | CBREAK on 0 lands on the ENDLOOP after balanced code |
| Nesting.ContinueFindsLoop | stack_machine.py:234-245 | CONTINUE lands on the LOOP before back-balanced code |
| LoopLowering.WhileShape | ircode.py:405-414 | a generated while is `[LOOP, CONSTI 1] + test + [SUBI, CBREAK] + body + [ENDLOOP]`, with a balanced body |
| LoopLowering.CBreakStep | stack_machine.py:216-232 | CBREAK falls through on nonzero and jumps past the closing ENDLOOP on 0 |
| LoopLowering.CBreakBranch | stack_machine.py:216-232 | the branch of CBREAK pops the test value and, on 0, lands on the ENDLOOP closing the balanced code that follows |
| LoopLowering.LoweredLoopBranch | stack_machine.py:76-82 | SUBI then CBREAK leave the loop when the test pushed 1 and enter the body otherwise |
| LoopLowering.WhileExitsWhenTestHolds | ircode.py:407-411 | generated loops exit exactly when their test is true |
| LoopLowering.WhileEndFallsThrough | stack_machine.py:247-248 | ENDLOOP passes to the instruction after the loop, never back to LOOP |
| LoopLowering.WhileEndsWithEndloop | ircode.py:405-414 | the generated code of a `while` ends with ENDLOOP |
| ParserSpec.Expression | parser/parser.py:211-212 | a parsed expression consumes at least one token and stays within the tokens |
| ParserSpec.OrTerm | parser/parser.py:214-220 | the same for `orterm` |
| ParserSpec.OrTail | parser/parser.py:216-219 | the loop of `orterm` never moves backward |
| ParserSpec.AndTerm | parser/parser.py:222-228 | the same for `andterm` |
| ParserSpec.AndTail | parser/parser.py:224-227 | the loop of `andterm` never moves backward, with its fold proved by AndTailFoldsLeft |
| ParserSpec.RelTerm | parser/parser.py:230-236 | the same for `relterm` |
| ParserSpec.RelTail | parser/parser.py:232-235 | the loop of `relterm` never moves backward |
| ParserSpec.AddTerm | parser/parser.py:238-244 | the same for `addterm` |
| ParserSpec.AddTail | parser/parser.py:240-243 | the loop of `addterm` never moves backward |
| ParserSpec.Factor | parser/parser.py:246-277 | a factor consumes at least one token |
| ParserSpec.Arguments | parser/parser.py:290-297 | arguments never move backward |
| ParserSpec.ArgList | parser/parser.py:293-296 | a non-empty argument list consumes tokens |
| ParserSpec.Parameters | parser/parser.py:279-288 | parameters consume at least one token (the RPAREN or a name) |
| ParserSpec.ParamList | parser/parser.py:282-287 | a parameter list consumes tokens |
| ParserSpec.Statement | parser/parser.py:114-134 | a statement consumes at least one token |
| ParserSpec.AssignmentRest | parser/parser.py:136-146 | an assignment or call statement consumes tokens |
| ParserSpec.VarDecl | parser/parser.py:148-158 | a declaration consumes tokens |
| ParserSpec.FuncDecl | parser/parser.py:160-174 | a function declaration consumes tokens |
| ParserSpec.IfStmt | parser/parser.py:176-188 | an if consumes tokens |
| ParserSpec.WhileStmt | parser/parser.py:190-196 | a while consumes tokens |
| ParserSpec.ReturnStmt | parser/parser.py:198-201 | a return consumes tokens |
| ParserSpec.PrintStmt | parser/parser.py:203-206 | a print consumes tokens |
| ParserSpec.Block | parser/parser.py:180-181 | a braced statement list consumes through its RBRACE |
| Parsing.Parser.constructor | parser/parser.py:101-103 | the cursor starts at 0 |
| Parsing.Parser.Advance | parser/parser.py:306-309 | returns the current token and moves one on |
| Parsing.Parser.Match | parser/parser.py:311-315 | true and advanced exactly when the current token has the kind |
| Parsing.Parser.MatchAny | parser/parser.py:232 | the chain of `match` calls: advances exactly when the kind is one of the set |
| Parsing.Parser.Peek | parser/parser.py:303-304 | the token at the cursor, or None exactly past the end; its kind is what `match` tests |
| ParserSpec.Raise | parser/parser.py:317-320 | a `SyntaxError` always fails the parse, carrying the line of the token at the cursor; past the end, where `peek()` is None, it fails without a line |
| ParserSpec.Consume | parser/parser.py:317-320 | succeeds exactly when the token at the cursor has the kind, returning that token and moving one on; otherwise the `SyntaxError` naming the expected kind |
| ParserSpec.Numeral | parser/parser.py:247-248 | `int(lexeme)` succeeds exactly on a non-empty string of ASCII digits, else `NotANumeral` for that lexeme |
| ParserProps.NumeralRoundTrip | parser/parser.py:247-248 | `int()` reads back every natural number written in decimal |
| ParserSpec.ProgramFrom | parser/parser.py:105-109 | the loop of `parse`: at the end or at an EOF token the statements so far are the program; otherwise at most one more statement per remaining token |
| ParserSpec.Parse | parser/parser.py:105-109 | `parse` from the first token: no tokens or a leading EOF give the empty program, and a program never has more statements than tokens |
| Parsing.Parser.Consume | parser/parser.py:317-320 | the matched token, or a syntax error at the current line |
| Parsing.Parser.Parse | parser/parser.py:105-109 | the program equals `ProgramFrom` from the cursor |
| Parsing.Parser.Statement | parser/parser.py:114-134 | result and cursor follow `ParserSpec.Statement` |
| Parsing.Parser.DeclStmt | parser/parser.py:117-134 | once ID is ruled out: VAR or CONST, FUNC, else the remaining kinds, with result and cursor following `ParserSpec.Statement` |
| Parsing.Parser.ControlStmt | parser/parser.py:121-134 | the statement kinds after the declarations follow `ParserSpec.Statement` |
| Parsing.Parser.AssignmentStmt | parser/parser.py:136-146 | follows `AssignmentRest` |
| Parsing.Parser.VarDecl | parser/parser.py:148-158 | follows `ParserSpec.VarDecl` with `is_const` from the previous lexeme |
| Parsing.Parser.FuncDecl | parser/parser.py:160-174 | follows `ParserSpec.FuncDecl` |
| Parsing.Parser.IfStmt | parser/parser.py:176-188 | follows `ParserSpec.IfStmt` |
| Parsing.Parser.WhileStmt | parser/parser.py:190-196 | follows `ParserSpec.WhileStmt` |
| Parsing.Parser.ReturnStmt | parser/parser.py:198-201 | follows `ParserSpec.ReturnStmt` |
| Parsing.Parser.PrintStmt | parser/parser.py:203-206 | follows `ParserSpec.PrintStmt` |
| Parsing.Parser.Block | parser/parser.py:194-195 | the `while not match('RBRACE')` loop follows `ParserSpec.Block` |
| Parsing.Parser.Expression | parser/parser.py:211-212 | follows `ParserSpec.Expression` |
| Parsing.Parser.OrTerm | parser/parser.py:214-220 | the loop follows `ParserSpec.OrTerm` |
| Parsing.Parser.AndTerm | parser/parser.py:222-228 | the loop follows `ParserSpec.AndTerm` |
| Parsing.Parser.RelTerm | parser/parser.py:230-236 | the loop follows `ParserSpec.RelTerm` |
| Parsing.Parser.AddTerm | parser/parser.py:238-244 | the loop follows `ParserSpec.AddTerm` |
| Parsing.Parser.Factor | parser/parser.py:246-258 | follows `ParserSpec.Factor` |
| Parsing.Parser.Primary | parser/parser.py:259-277 | the parenthesised, cast, call and name factors follow `ParserSpec.Factor` |
| Parsing.Parser.Parameters | parser/parser.py:279-288 | the loop follows `ParserSpec.Parameters` |
| Parsing.Parser.Arguments | parser/parser.py:290-297 | the loop follows `ParserSpec.Arguments` |
| ParserProps.AddTailFoldsLeft | parser/parser.py:238-244 | `addterm` folds to the left, every operation above the first factor one of the four arithmetic kinds |
| ParserProps.RelTailFoldsLeft | parser/parser.py:230-236 | `relterm` folds to the left over the six comparisons |
| ParserProps.OrTailFoldsLeft | parser/parser.py:214-220 | `orterm` folds to the left, every operation spelled '\|\|' |
| ParserProps.AndTailFoldsLeft | parser/parser.py:222-228 | `andterm` folds to the left: the relterm parsed first is the leftmost operand, under operations all spelled '&&' |
| ParserProps.FoldedOntoTrans | parser/parser.py:219 | a fold stacked on a fold of `left` is a fold of `left` |
| ParserProps.SubtractionAssociatesLeft | parser/parser.py:238-244 | `1 - 2 - 3` is `(1 - 2) - 3` |
| ParserProps.TimesDoesNotBindTighter | parser/parser.py:240 | `1 + 2 * 3` is `(1 + 2) * 3`: one level for all four operators |
| ParserProps.BoolRelTerm | parser/parser.py:253-254 | a boolean literal alone is a whole comparison term |
| ParserProps.LogicalOperatorSpellings | parser/parser.py:214-228 | LAND and LOR build BinOp '&&' and '\|\|' |
| ParserProps.DecimalValueNonNegative | parser/parser.py:248 | an INTEGER token's value is never negative |
| ParserProps.FactorShapes | parser/parser.py:246-258 | INTEGER gives its value, TRUE/FALSE are true exactly for the lexeme "true", and prefix operators wrap the next factor |
| ParserProps.NameStatementShape | parser/parser.py:136-146 | an ID statement is a call when LPAREN follows, else an assignment to an untyped location |
| ParserProps.IfAlternativeShapes | parser/parser.py:176-188 | for every token list: the alternative is None exactly when no ELSE follows the consequence's RBRACE; after ELSE it is the second block's statements, empty or not |
| ParserProps.ConstLexemeIsNotConst | parser/parser.py:149 | a `const` declaration parses with `is_const` false |
| ParserProps.EmptyParameterListRejected | parser/parser.py:160-165 | `func f()` not followed by a second RPAREN is a syntax error, because `parameters` (line 281) already took the first one |
| ParserProps.BreakSemicolonRejected | parser/parser.py:125-126 | `break;` is a syntax error at the semicolon |
| ParserProps.ProgramFromExtends | parser/parser.py:105-109 | `parse` keeps the statements collected, in order, adding at most one per token |
| ParserProps.ParseStopsAtEof | parser/parser.py:107 | an EOF token ends the program, and no tokens give an empty program |
| ParserProps.IntegerExpression | parser/parser.py:247-248 | a one-digit INTEGER followed by SEMI parses to its value |
| ParserProps.TwoStatementProgram | parser/parser.py:105-109 | `print 1; x = 2;` is a Print then an Assignment |

## Left out

- The lexer (lexer/tokenize.py), the error reporting (errors.py) and the driver (main.py) are not part of this model. The parser takes abstract tokens `Token(kind, value, lineno)`.
- Debug output, the `dump` methods, `Symtab.print` and the rich tables are not modelled. Neither is the checker's printed completion message. Stdout from PRINTI and PRINTB is an output trace on the machine (`Printed`).
- Floating point is left out. A FLOAT literal keeps its lexeme, and its value is never inspected. The machine has no handler for CONSTF, the float opcodes, PRINTF, ITOF or FTOI; running any of them faults as an unknown opcode, as in the source.
- Memory is left out: the `MemoryAddress` node (parser/modelo.py:349), its visits in the checker and the IR generator (semantic/check.py:279, ircode.py:514-534), the 1024-cell memory, and the PEEK/POKE and GROW handlers. The parser never builds a `MemoryAddress`, and the model's `Expr` has no such constructor. POKEI and GROW can only be emitted, and they fault when run.
- Checking.Checker.Check: takes a `Program` only. The source also accepts a single non-Program node and checks it alone in the global table (semantic/check.py:35-36). Every caller passes a Program (main.py:59, test_semantic.py:23, test_ircode.py:41).
- The multimethod dispatch of `accept`/`visit` becomes a `match` over the datatypes.
- `new_temp`, `IRGlobal` (a global is its name and IR type) and the unused `_typecast_code` table are not modelled.
- The `imported` flag of `IRFunction` is not modelled. The generator never passes it.
- Symbols.Symtab.Add: a name already in the table always yields `SymbolDefined`. The source first compares `dtype` attributes, which no stored node has. So it raises an attribute error instead of either symbol error; the add fails and the table is unchanged either way.
- Symbols.Symtab.Remove: an absent name yields `SymbolNotFound`. The source raises `Symtab.SymbolNotFoundError`, a class it never defines, so the raise itself fails; either way, removal fails.
- StackVm.StackMachine.Run: runs at most `fuel` instructions and reports `Exhausted` beyond that. The source loops without bound, and a non-terminating run is not modelled.
- Checking.Checker.Check: the errors are kept as error kinds rather than exception messages. The checker's outer re-raise is modelled as the `Err` result.
- NestedReturnIsMissing: one concrete function only; the general rule is CheckProps.MissingReturnRule.
- ParserSpec.Factor: `int(lexeme)` is modelled only on strings of the ASCII digits '0'..'9' (`ParserSpec.Numeral`). The lexer's INTEGER pattern `\d+` (lexer/tokenize.py:77) also matches other Unicode decimal digits, which Python's `int()` converts; the model turns every such lexeme into `NotANumeral`.
- Parsing.Parser.Factor: `float(lexeme)` of a FLOAT token is not computed; the lexeme is kept. An INTEGER lexeme is converted only when it is made of ASCII digits, as in `ParserSpec.Factor` above.
- Python exceptions that a malformed tree would raise outside the cases above (for example an attribute read on a node the parser never builds) are not modelled.
