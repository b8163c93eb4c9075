/** The CPU structure and its operations, updating memory, registers,
    program counter and flags in place. Every method is proved against the
    function of module Machine that gives its meaning.
 */
module Emulator {
  import opened Isa
  import Machine

  class Cpu {
    /** The 256-byte memory and the 8-entry register file: fixed arrays. */
    const ram: array<byte>
    const reg: array<byte>
    var pc: byte
    var fl: byte
    /** What PRN has printed so far, one byte per line of output. */
    var out: seq<byte>

    ghost predicate Valid()
      reads this
    {
      ram.Length == RAM_SIZE && reg.Length == REG_COUNT && ram != reg
    }

    /** The abstract value of the machine. */
    ghost function State(): Machine.State
      reads this, ram, reg
      requires Valid()
    {
      Machine.State(ram[..], reg[..], pc, fl, out)
    }

    /** A machine whose memory and registers hold arbitrary bytes, as an
        uninitialised structure does until cpu_init and the loader run. */
    constructor (ram0: Machine.Ram, reg0: Machine.Regs, pc0: byte, fl0: byte)
      ensures Valid() && fresh(ram) && fresh(reg)
      ensures State() == Machine.State(ram0, reg0, pc0, fl0, [])
    {
      ram := new byte[RAM_SIZE](i requires 0 <= i < RAM_SIZE => ram0[i]);
      reg := new byte[REG_COUNT](i requires 0 <= i < REG_COUNT => reg0[i]);
      pc, fl, out := pc0, fl0, [];
    }

    /** cpu_ram_read: the cell at an 8-bit address (always in bounds). */
    method RamRead(address: byte) returns (value: byte)
      requires Valid()
      ensures value == Machine.RamRead(State(), address)
    {
      value := ram[address];
    }

    /** cpu_ram_write: store one byte; no other cell and nothing else changes. */
    method RamWrite(address: byte, value: byte)
      requires Valid()
      modifies ram
      ensures Valid()
      ensures ram[address] == value
      ensures forall i :: 0 <= i < RAM_SIZE && i != address ==> ram[i] == old(ram[i])
      ensures State() == Machine.RamWrite(old(State()), address, value)
    {
      ram[address] := value;
    }

    /** cpu_push: SP := SP - 1, then ram[SP] := value. */
    method Push(value: byte)
      requires Valid()
      modifies ram, reg
      ensures Valid()
      ensures reg[SP] == Wrap(old(reg[SP]) as int - 1) && ram[reg[SP]] == value
      ensures State() == Machine.Push(old(State()), value)
    {
      reg[SP] := Wrap(reg[SP] as int - 1);
      ram[reg[SP]] := value;
    }

    /** cpu_pop: value := ram[SP], then SP := SP + 1. */
    method Pop() returns (value: byte)
      requires Valid()
      modifies reg
      ensures Valid()
      ensures value == old(ram[reg[SP]]) && reg[SP] == Wrap(old(reg[SP]) as int + 1)
      ensures (State(), value) == Machine.Pop(old(State()))
    {
      value := ram[reg[SP]];
      reg[SP] := Wrap(reg[SP] as int + 1);
    }

    /** alu: reg[regA] := reg[regA] op reg[regB] for MUL and ADD, modulo 256;
        any other operation does nothing. Register indices must be below 8. */
    method Alu(op: AluOp, regA: byte, regB: byte)
      requires Valid() && regA < REG_COUNT && regB < REG_COUNT
      modifies reg
      ensures Valid()
      ensures State() == Machine.Alu(old(State()), op, regA, regB)
    {
      var a, b := reg[regA], reg[regB];
      match op {
        case AluMul =>
          reg[regA] := Mul8(a, b);
        case AluAdd =>
          reg[regA] := Add8(a, b);
        case AluOther(_) =>
      }
    }

    /** One iteration of the loop of cpu_run: fetch, check the register
        operands, dispatch, then advance pc unless the opcode sets it. */
    method Step() returns (outcome: Outcome)
      requires Valid()
      modifies this, ram, reg
      ensures Valid()
      ensures (State(), outcome) == Machine.Step(old(State()))
    {
      var ir := RamRead(pc);
      var operandA := RamRead(Wrap(pc as int + 1));
      var operandB := RamRead(Wrap(pc as int + 2));
      if Machine.IndexesRegA(ir, fl) && operandA >= REG_COUNT {
        return BadRegister(pc, ir, operandA);
      }
      if Machine.IndexesRegB(ir) && operandB >= REG_COUNT {
        return BadRegister(pc, ir, operandB);
      }
      outcome := Execute(ir, operandA, operandB);
      if outcome.IsFault() {
        return;
      }
      if !SetsPc(ir) {
        pc := Wrap(pc as int + Width(ir));
      }
    }

    /** The switch of cpu_run: the handler of opcode ir, before pc advances. */
    method Execute(ir: byte, operandA: byte, operandB: byte) returns (outcome: Outcome)
      requires Valid()
      requires Machine.IndexesRegA(ir, fl) ==> operandA < REG_COUNT
      requires Machine.IndexesRegB(ir) ==> operandB < REG_COUNT
      modifies this, ram, reg
      ensures Valid()
      ensures (State(), outcome) == Machine.Execute(old(State()), ir, operandA, operandB)
    {
      outcome := Running;
      if ir == PRN {
        out := out + [reg[operandA]];
      } else if ir == HLT {
        outcome := Halted;
      } else if ir == LDI {
        reg[operandA] := operandB;
      } else if ir == MUL {
        Alu(AluMul, operandA, operandB);
      } else if ir == ADD {
        // Defect of the source, kept: ADD runs the multiplication.
        Alu(AluMul, operandA, operandB);
      } else if ir == PUSH {
        reg[SP] := Wrap(reg[SP] as int - 1);
        RamWrite(reg[SP], reg[operandA]);
      } else if ir == POP {
        var v := RamRead(reg[SP]);
        reg[operandA] := v;
        reg[SP] := Wrap(reg[SP] as int + 1);
      } else if ir == CALL {
        Push(Wrap(pc as int + 2));
        pc := reg[operandA];
      } else if ir == RET {
        pc := Pop();
      } else if ir == CMP {
        if reg[operandA] == reg[operandB] {
          fl := 1;
        } else {
          fl := 0;
        }
      } else if ir == JMP {
        pc := reg[operandA];
      } else if ir == JEQ {
        if FlagSet(fl, FLAG_E) {
          pc := reg[operandA];
        } else {
          pc := Wrap(pc as int + 2);
        }
      } else if ir == JNE {
        if !FlagSet(fl, FLAG_E) {
          pc := reg[operandA];
        } else {
          pc := Wrap(pc as int + 2);
        }
      } else {
        outcome := Illegal(pc, ir);
      }
    }

    /** cpu_run: step until HLT, a fault, or the fuel is used up. */
    method Run(fuel: nat) returns (outcome: Outcome)
      requires Valid()
      modifies this, ram, reg
      ensures Valid()
      ensures (State(), outcome) == Machine.Run(old(State()), fuel)
    {
      outcome := Running;
      var remaining := fuel;
      while outcome == Running && remaining > 0
        invariant Valid()
        invariant outcome == Running ==> Machine.Run(old(State()), fuel) == Machine.Run(State(), remaining)
        invariant outcome != Running ==> Machine.Run(old(State()), fuel) == (State(), outcome)
        decreases remaining
      {
        outcome := Step();
        remaining := remaining - 1;
      }
    }

    /** memset(ram, 0, n). */
    method ZeroRam(n: nat)
      requires Valid() && n <= RAM_SIZE
      modifies ram
      ensures Valid()
      ensures ram[..] == Machine.ZeroPrefix(old(ram[..]), n)
    {
      var i := 0;
      while i < n
        invariant i <= n
        invariant forall k :: 0 <= k < i ==> ram[k] == 0
        invariant forall k :: i <= k < RAM_SIZE ==> ram[k] == old(ram[k])
      {
        ram[i] := 0;
        i := i + 1;
      }
    }

    /** cpu_init. As written, the first memset clears sizeof(reg) bytes of
        memory rather than the registers, so only SP is reset among them. */
    method Init()
      requires Valid()
      modifies this, ram, reg
      ensures Valid()
      ensures State() == Machine.Init(old(State()))
    {
      pc := 0;
      reg[SP] := ADDR_EMPTY_STACK;
      fl := 0;
      ZeroRam(REG_COUNT);
      ZeroRam(RAM_SIZE);
    }
  }
}
