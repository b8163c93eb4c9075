/** Constants and instruction encoding of the LS-8 byte-code machine.

    The header that declares these values is not part of this model; the
    values below are the LS-8 ones the execution engine is written against.
 */
module Isa {

  /** An unsigned char: every value the machine stores is a byte. */
  type byte = x: int | 0 <= x < 256

  /** Conversion to unsigned char: the value modulo 256 (so 0 - 1 becomes 255). */
  function Wrap(x: int): byte
  {
    x % 256
  }

  /** Size of the memory array: every 8-bit address is a valid cell. */
  const RAM_SIZE := 256
  /** Number of registers in the register file. */
  const REG_COUNT := 8
  /** Register 7 holds the stack pointer. */
  const SP := 7

  /** Value of SP for an empty stack; the stack grows towards address 0. */
  const ADDR_EMPTY_STACK: byte := 0xF4
  /** Address at which a program image is loaded. */
  const ADDR_PROGRAM_ENTRY: byte := 0x00
  /** The Equal bit of the flags register. */
  const FLAG_E: byte := 0x01

  // Opcodes. Bits 6-7 give the operand count, bit 4 says the
  // instruction sets the program counter itself.
  const HLT: byte := 0x01
  const LDI: byte := 0x82
  const PRN: byte := 0x47
  const ADD: byte := 0xA0
  const MUL: byte := 0xA2
  const PUSH: byte := 0x45
  const POP: byte := 0x46
  const CALL: byte := 0x50
  const RET: byte := 0x11
  const CMP: byte := 0xA7
  const JMP: byte := 0x54
  const JEQ: byte := 0x55
  const JNE: byte := 0x56

  /** The opcodes the execution loop dispatches on; any other byte is illegal. */
  predicate Known(ir: byte)
  {
    ir in {HLT, LDI, PRN, ADD, MUL, PUSH, POP, CALL, RET, CMP, JMP, JEQ, JNE}
  }

  /** (ir >> 4) & 1: bit 4 of the opcode, set when the handler sets the
      program counter itself. */
  predicate SetsPc(ir: byte)
  {
    (ir / 16) % 2 == 1
  }

  /** (ir >> 6) + 1: distance to the next instruction for an auto-advancing
      opcode, one opcode byte plus the operand count held in bits 6-7. */
  function Width(ir: byte): int
  {
    ir / 64 + 1
  }

  /** fl & mask != 0, for a single-bit mask such as FLAG_E. */
  predicate FlagSet(fl: byte, mask: byte)
    requires mask in {1, 2, 4, 8, 16, 32, 64, 128}
  {
    (fl / mask) % 2 == 1
  }

  /** Product of two bytes, truncated to 8 bits as the unsigned char
      compound assignment does. */
  function Mul8(x: byte, y: byte): byte
  {
    Wrap(x * y)
  }

  /** Sum of two bytes, truncated to 8 bits. */
  function Add8(x: byte, y: byte): byte
  {
    Wrap(x + y)
  }

  /** Selector of the arithmetic/logic unit. The enumeration may declare
      further operations; the unit implements only these two. */
  datatype AluOp = AluMul | AluAdd | AluOther(code: nat)

  /** How one step (or a fuel-bounded run) of the execution loop ends.
      Running: the loop goes on (for a run: the fuel ran out).
      Halted: HLT was executed.
      Illegal: the opcode at pc matches no handler.
      BadRegister: an operand used as a register index is not below 8. */
  datatype Outcome =
    | Running
    | Halted
    | Illegal(pc: byte, ir: byte)
    | BadRegister(pc: byte, ir: byte, index: byte)
  {
    /** The loop stops abnormally, before the program counter advances. */
    predicate IsFault()
    {
      Illegal? || BadRegister?
    }
  }
}
