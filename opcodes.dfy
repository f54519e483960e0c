/**
 * The instruction vocabulary shared by the IR generator (ircode.py) and the
 * stack machine (stack_machine.py). An instruction is an opcode tuple; each
 * constructor carries exactly the tuple's operands.
 */
module Opcodes {

  datatype Instr =
    | CONSTI(value: int)
    | CONSTF(literal: string)     // float operands are kept as text
    | CONSTB(literal: string)
    | ADDI | SUBI | MULI | DIVI | MODI
    | LTI | LEI | GTI | GEI | EQI | NEI
    | ADDF | SUBF | MULF | DIVF
    | LTF | LEF | GTF | GEF | EQF | NEF
    | PRINTI | PRINTF | PRINTB
    | IF | ELSE | ENDIF
    | LOOP | CBREAK | CONTINUE | ENDLOOP
    | LOCAL_GET(name: string) | LOCAL_SET(name: string)
    | GLOBAL_GET(name: string) | GLOBAL_SET(name: string)
    | CALL(name: string) | RET
    | ITOF | FTOI | GROW | POKEI
  {
    /** The integer operations that pop two operands and push one. */
    predicate IsIntBinary() {
      ADDI? || SUBI? || MULI? || DIVI? || MODI? || LTI? || LEI? || GTI? || GEI? || EQI? || NEI?
    }

    /** Structured control-flow markers: the only instructions the machine's scans look at. */
    predicate IsMarker() {
      IF? || ELSE? || ENDIF? || LOOP? || ENDLOOP?
    }
  }
}
