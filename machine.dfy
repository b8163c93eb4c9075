/** The LS-8 execution engine as functions over an immutable machine state.
    These functions are the specification the imperative Cpu class is proved
    against, and the object the lemmas in MachineFacts talk about.
 */
module Machine {
  import opened Isa

  /** 256 memory cells holding both the program and the stack. */
  type Ram = m: seq<byte> | |m| == RAM_SIZE witness seq(RAM_SIZE, _ => 0)
  /** The 8-entry register file; register SP is the stack pointer. */
  type Regs = r: seq<byte> | |r| == REG_COUNT witness seq(REG_COUNT, _ => 0)

  /** The whole machine: memory, registers, program counter, flags, and the
      bytes PRN has emitted so far (standard output, in emission order). */
  datatype State = State(ram: Ram, reg: Regs, pc: byte, fl: byte, out: seq<byte>)

  /** cpu_ram_read: the cell at an 8-bit address. */
  function RamRead(s: State, address: byte): byte
  {
    s.ram[address]
  }

  /** cpu_ram_write: store one byte. The addressed cell then reads back as
      the value, every other cell reads as before, and nothing but memory
      changes. */
  function RamWrite(s: State, address: byte, value: byte): (r: State)
    ensures RamRead(r, address) == value
    ensures forall a: byte :: a != address ==> RamRead(r, a) == RamRead(s, a)
    ensures r.reg == s.reg && r.pc == s.pc && r.fl == s.fl && r.out == s.out
  {
    s.(ram := s.ram[address := value])
  }

  /** cpu_push: decrement SP, then store at the new SP. Exactly one cell is
      written, the one at the new SP, and no other register changes. */
  function Push(s: State, value: byte): (r: State)
    ensures r.reg[SP] == Wrap(s.reg[SP] as int - 1)
    ensures RamRead(r, r.reg[SP]) == value
    ensures forall a: byte :: a != r.reg[SP] ==> RamRead(r, a) == RamRead(s, a)
    ensures forall i :: 0 <= i < REG_COUNT && i != SP ==> r.reg[i] == s.reg[i]
    ensures r.pc == s.pc && r.fl == s.fl && r.out == s.out
  {
    var sp := Wrap(s.reg[SP] as int - 1);
    RamWrite(s.(reg := s.reg[SP := sp]), sp, value)
  }

  /** cpu_pop: read at SP, then increment SP. Returns the new state and the
      byte read; memory and the other registers do not change. */
  function Pop(s: State): (r: (State, byte))
    ensures r.1 == RamRead(s, s.reg[SP])
    ensures r.0.reg[SP] == Wrap(s.reg[SP] as int + 1)
    ensures forall i :: 0 <= i < REG_COUNT && i != SP ==> r.0.reg[i] == s.reg[i]
    ensures r.0.ram == s.ram && r.0.pc == s.pc && r.0.fl == s.fl && r.0.out == s.out
  {
    (s.(reg := s.reg[SP := Wrap(s.reg[SP] as int + 1)]), RamRead(s, s.reg[SP]))
  }

  /** alu: MUL and ADD store the product or the sum of reg[regA] and
      reg[regB], modulo 256, in regA, and change nothing else. An operation
      the unit does not implement leaves the state as it is. */
  function Alu(s: State, op: AluOp, regA: byte, regB: byte): (r: State)
    requires regA < REG_COUNT && regB < REG_COUNT
    ensures r.ram == s.ram && r.pc == s.pc && r.fl == s.fl && r.out == s.out
    ensures forall i :: 0 <= i < REG_COUNT && i != regA ==> r.reg[i] == s.reg[i]
    ensures op == AluMul ==> r.reg[regA] == (s.reg[regA] as int * s.reg[regB] as int) % 256
    ensures op == AluAdd ==> r.reg[regA] == (s.reg[regA] as int + s.reg[regB] as int) % 256
    ensures op.AluOther? ==> r == s
  {
    var a, b := s.reg[regA], s.reg[regB];
    match op
    case AluMul => s.(reg := s.reg[regA := Mul8(a, b)])
    case AluAdd => s.(reg := s.reg[regA := Add8(a, b)])
    case AluOther(_) => s
  }

  /** The handler of opcode ir reads reg[operandA] when the flags are fl.
      JEQ and JNE read it only when they jump. */
  predicate IndexesRegA(ir: byte, fl: byte)
  {
    ir in {PRN, LDI, MUL, ADD, PUSH, POP, CALL, CMP, JMP}
    || (ir == JEQ && FlagSet(fl, FLAG_E))
    || (ir == JNE && !FlagSet(fl, FLAG_E))
  }

  /** The handler of opcode ir reads reg[operandB]. */
  predicate IndexesRegB(ir: byte)
  {
    ir in {MUL, ADD, CMP}
  }

  /** The handler of one opcode, before the program counter is advanced.
      An opcode matching no handler changes nothing and reports Illegal. */
  function Execute(s: State, ir: byte, operandA: byte, operandB: byte): (State, Outcome)
    requires IndexesRegA(ir, s.fl) ==> operandA < REG_COUNT
    requires IndexesRegB(ir) ==> operandB < REG_COUNT
  {
    if ir == PRN then
      (s.(out := s.out + [s.reg[operandA]]), Running)
    else if ir == HLT then
      (s, Halted)
    else if ir == LDI then
      (s.(reg := s.reg[operandA := operandB]), Running)
    else if ir == MUL then
      (Alu(s, AluMul, operandA, operandB), Running)
    else if ir == ADD then
      // Defect of the source: the ADD opcode invokes the multiplication.
      (Alu(s, AluMul, operandA, operandB), Running)
    else if ir == PUSH then
      // Inline push: SP is decremented before reg[operandA] is read,
      // so PUSH SP stores the decremented stack pointer.
      var t := s.(reg := s.reg[SP := Wrap(s.reg[SP] as int - 1)]);
      (RamWrite(t, t.reg[SP], t.reg[operandA]), Running)
    else if ir == POP then
      // Inline pop: SP is incremented after reg[operandA] is written,
      // so POP SP leaves the popped byte plus one.
      var t := s.(reg := s.reg[operandA := RamRead(s, s.reg[SP])]);
      (t.(reg := t.reg[SP := Wrap(t.reg[SP] as int + 1)]), Running)
    else if ir == CALL then
      var t := Push(s, Wrap(s.pc as int + 2));
      (t.(pc := t.reg[operandA]), Running)
    else if ir == RET then
      var (t, v) := Pop(s);
      (t.(pc := v), Running)
    else if ir == CMP then
      (s.(fl := if s.reg[operandA] == s.reg[operandB] then 1 else 0), Running)
    else if ir == JMP then
      (s.(pc := s.reg[operandA]), Running)
    else if ir == JEQ then
      if FlagSet(s.fl, FLAG_E) then (s.(pc := s.reg[operandA]), Running)
      else (s.(pc := Wrap(s.pc as int + 2)), Running)
    else if ir == JNE then
      if !FlagSet(s.fl, FLAG_E) then (s.(pc := s.reg[operandA]), Running)
      else (s.(pc := Wrap(s.pc as int + 2)), Running)
    else
      (s, Illegal(s.pc, ir))
  }

  /** Step 4 of the loop: after a handler that did not fault, pc moves past
      the instruction unless bit 4 of the opcode says the handler set it. */
  function Advance(ir: byte, handled: (State, Outcome)): (State, Outcome)
  {
    var (t, o) := handled;
    if o.IsFault() || SetsPc(ir) then (t, o)
    else (t.(pc := Wrap(t.pc as int + Width(ir))), o)
  }

  /** One iteration of the loop of cpu_run: fetch the opcode and both operand
      bytes (addresses wrap at 256), run the handler, then advance pc.
      A fault stops the step where it is detected, with no state change;
      BadRegister is reported exactly when the handler would index the
      register file with an operand of 8 or more. */
  function Step(s: State): (r: (State, Outcome))
    ensures r.1.IsFault() ==> r.0 == s
    ensures r.1.Illegal? <==> !Known(RamRead(s, s.pc))
    ensures r.1.Illegal? ==> r.1 == Illegal(s.pc, RamRead(s, s.pc))
    ensures var ir := RamRead(s, s.pc);
      var operandA := RamRead(s, Wrap(s.pc as int + 1));
      var operandB := RamRead(s, Wrap(s.pc as int + 2));
      r.1.BadRegister? <==>
        (IndexesRegA(ir, s.fl) && operandA >= REG_COUNT)
        || (IndexesRegB(ir) && operandB >= REG_COUNT)
  {
    var ir := RamRead(s, s.pc);
    var operandA := RamRead(s, Wrap(s.pc as int + 1));
    var operandB := RamRead(s, Wrap(s.pc as int + 2));
    if IndexesRegA(ir, s.fl) && operandA >= REG_COUNT then
      (s, BadRegister(s.pc, ir, operandA))
    else if IndexesRegB(ir) && operandB >= REG_COUNT then
      (s, BadRegister(s.pc, ir, operandB))
    else
      Advance(ir, Execute(s, ir, operandA, operandB))
  }

  /** The loop of cpu_run, bounded by fuel: at most fuel steps are taken.
      The outcome is that of the step that stopped the loop, or Running
      when the fuel ran out first. */
  function Run(s: State, fuel: nat): (State, Outcome)
    decreases fuel
  {
    if fuel == 0 then (s, Running)
    else
      var (t, o) := Step(s);
      if o == Running then Run(t, fuel - 1) else (t, o)
  }

  /** memset(ram, 0, n): the first n cells become 0, the rest are kept. */
  function ZeroPrefix(m: Ram, n: nat): Ram
    requires n <= RAM_SIZE
  {
    seq(RAM_SIZE, i requires 0 <= i < RAM_SIZE => if i < n then 0 else m[i])
  }

  /** cpu_init: pc set to the entry address, flags cleared, SP set to the
      empty stack, and memory zeroed, first over sizeof(reg) bytes and then
      over all of it. The registers other than SP keep their values. */
  function Init(s: State): (r: State)
    ensures r.pc == ADDR_PROGRAM_ENTRY && r.fl == 0
    ensures r.reg[SP] == ADDR_EMPTY_STACK
    ensures forall a: byte :: RamRead(r, a) == 0
    ensures forall i :: 0 <= i < REG_COUNT && i != SP ==> r.reg[i] == s.reg[i]
    ensures r.out == s.out
  {
    s.(pc := 0, reg := s.reg[SP := ADDR_EMPTY_STACK], fl := 0,
       ram := ZeroPrefix(ZeroPrefix(s.ram, REG_COUNT), RAM_SIZE))
  }
}
