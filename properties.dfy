/** Properties of the LS-8 execution engine, stated over the functions of
    module Machine (and therefore, through the postconditions of the Cpu
    methods, over the imperative machine as well).
 */
module MachineFacts {
  import opened Isa
  import opened Machine

  /** The opcode at pc and the operand byte after it, as the loop fetches them. */
  predicate At(s: State, ir: byte, operandA: byte)
  {
    RamRead(s, s.pc) == ir && RamRead(s, Wrap(s.pc as int + 1)) == operandA
  }

  /** As At, and also the second operand byte. */
  predicate At2(s: State, ir: byte, operandA: byte, operandB: byte)
  {
    At(s, ir, operandA) && RamRead(s, Wrap(s.pc as int + 2)) == operandB
  }

  /** Wrapping twice is wrapping once. */
  lemma WrapWrap(x: int, k: int)
    ensures Wrap(Wrap(x) + k) == Wrap(x + k)
  {
  }

  /** One iteration of the bounded loop, unfolded. */
  lemma RunFirstStep(s: State, fuel: nat)
    requires fuel > 0
    ensures Run(s, fuel) == if Step(s).1 == Running then Run(Step(s).0, fuel - 1) else Step(s)
  {
  }

  // ---------------------------------------------------------------------
  // Memory and stack helpers

  /** Pop after push returns the pushed byte and restores SP: the only trace
      left is the written stack cell. */
  lemma PushPopRoundTrip(s: State, value: byte)
    ensures var (t, v) := Pop(Push(s, value));
      && v == value
      && t.reg == s.reg
      && t == RamWrite(s, Wrap(s.reg[SP] as int - 1), value)
  {
    var sp := s.reg[SP];
    var t := Push(s, value);
    assert t.reg[SP] == Wrap(sp as int - 1);
    assert Wrap(t.reg[SP] as int + 1) == sp;
    assert t.reg[SP := sp] == s.reg;
  }

  // ---------------------------------------------------------------------
  // The execution loop, one opcode at a time

  /** Of the recognised opcodes exactly CALL, RET, JMP, JEQ and JNE carry
      bit 4 and so set pc themselves; the others advance by their width. */
  lemma SetsPcExactlyForControlFlow(ir: byte)
    requires Known(ir)
    ensures SetsPc(ir) <==> ir in {CALL, RET, JMP, JEQ, JNE}
    ensures ir in {HLT, RET} ==> Width(ir) == 1
    ensures ir in {PRN, PUSH, POP, CALL, JMP, JEQ, JNE} ==> Width(ir) == 2
    ensures ir in {LDI, ADD, MUL, CMP} ==> Width(ir) == 3
  {
  }

  /** Every step that does not fault on an opcode whose bit 4 is clear
      leaves pc at the old pc plus (ir >> 6) + 1, modulo 256; HLT included. */
  lemma AutoAdvance(s: State)
    requires !SetsPc(RamRead(s, s.pc)) && !Step(s).1.IsFault()
    ensures Step(s).0.pc == Wrap(s.pc as int + RamRead(s, s.pc) / 64 + 1)
  {
    var ir := RamRead(s, s.pc);
    SetsPcExactlyForControlFlow(ir);
  }

  /** HLT changes nothing but pc, which still moves past the instruction,
      and the loop stops there without fetching again. */
  lemma HaltStops(s: State, fuel: nat)
    requires RamRead(s, s.pc) == HLT && fuel > 0
    ensures Step(s) == (s.(pc := Wrap(s.pc as int + 1)), Halted)
    ensures Run(s, fuel) == Step(s)
  {
  }

  /** LDI r, v loads the immediate into register r and touches nothing else. */
  lemma LdiLoads(s: State, r: byte, v: byte)
    requires At2(s, LDI, r, v) && r < REG_COUNT
    ensures Step(s) == (s.(reg := s.reg[r := v], pc := Wrap(s.pc as int + 3)), Running)
  {
  }

  /** PRN r appends reg[r] to the output and touches nothing else. */
  lemma PrnPrints(s: State, r: byte)
    requires At(s, PRN, r) && r < REG_COUNT
    ensures Step(s) == (s.(out := s.out + [s.reg[r]], pc := Wrap(s.pc as int + 2)), Running)
  {
  }

  /** LDI r, v followed by PRN r prints v. */
  lemma LdiThenPrn(s: State, r: byte, v: byte)
    requires At2(s, LDI, r, v) && r < REG_COUNT
    requires RamRead(s, Wrap(s.pc as int + 3)) == PRN && RamRead(s, Wrap(s.pc as int + 4)) == r
    ensures Run(s, 2).1 == Running && Run(s, 2).0.out == s.out + [v]
  {
    LdiLoads(s, r, v);
    var t := Step(s).0;
    WrapWrap(s.pc as int + 3, 1);
    assert At(t, PRN, r);
    PrnPrints(t, r);
    RunFirstStep(s, 2);
    RunFirstStep(t, 1);
  }

  /** MUL a, b multiplies modulo 256; so does ADD a, b, because the source
      dispatches ADD to the multiplication of the ALU. */
  lemma MulAndAddMultiply(s: State, ir: byte, a: byte, b: byte)
    requires ir in {MUL, ADD} && At2(s, ir, a, b) && a < REG_COUNT && b < REG_COUNT
    ensures Step(s) == (Alu(s, AluMul, a, b).(pc := Wrap(s.pc as int + 3)), Running)
    ensures Step(s).0.reg[a] == (s.reg[a] as int * s.reg[b] as int) % 256
  {
  }

  /** The ADD opcode on 250 and 10 leaves 196 (250 * 10 mod 256), not the
      sum 4 (260 mod 256) that an addition would give. */
  lemma AddOnTwoHundredFiftyAndTen(s: State, a: byte, b: byte)
    requires At2(s, ADD, a, b) && a < REG_COUNT && b < REG_COUNT && a != b
    requires s.reg[a] == 250 && s.reg[b] == 10
    ensures Step(s).0.reg[a] == 196
    ensures Alu(s, AluAdd, a, b).reg[a] == 4
  {
    MulAndAddMultiply(s, ADD, a, b);
  }

  /** PUSH r with r other than SP behaves as cpu_push(reg[r]). */
  lemma PushOpcodeIsPush(s: State, r: byte)
    requires At(s, PUSH, r) && r < REG_COUNT && r != SP
    ensures Step(s) == (Push(s, s.reg[r]).(pc := Wrap(s.pc as int + 2)), Running)
  {
  }

  /** POP r with r other than SP behaves as reg[r] := cpu_pop(). */
  lemma PopOpcodeIsPop(s: State, r: byte)
    requires At(s, POP, r) && r < REG_COUNT && r != SP
    ensures var (t, v) := Pop(s);
      Step(s) == (t.(reg := t.reg[r := v], pc := Wrap(s.pc as int + 2)), Running)
  {
    var v := RamRead(s, s.reg[SP]);
    var sp := Wrap(s.reg[SP] as int + 1);
    assert s.reg[r := v][SP := sp] == s.reg[SP := sp][r := v];
  }

  /** PUSH SP stores the already decremented stack pointer, where
      cpu_push(reg[SP]) would store the old one. */
  lemma PushSpStoresDecrementedSp(s: State)
    requires At(s, PUSH, SP)
    ensures var sp := Wrap(s.reg[SP] as int - 1);
      Step(s).0.ram[sp] == sp && Push(s, s.reg[SP]).ram[sp] == s.reg[SP]
  {
  }

  /** POP SP leaves the popped byte plus one in SP, where reg[SP] := cpu_pop()
      would leave the popped byte. */
  lemma PopSpKeepsPoppedPlusOne(s: State)
    requires At(s, POP, SP)
    ensures Step(s).0.reg[SP] == Wrap(s.ram[s.reg[SP]] as int + 1)
  {
  }

  /** PUSH r followed by POP r2 copies reg[r] into r2 and restores SP. */
  lemma PushThenPop(s: State, r: byte, r2: byte)
    requires At(s, PUSH, r) && r < REG_COUNT && r != SP
    requires At(Step(s).0, POP, r2) && r2 < REG_COUNT && r2 != SP
    ensures var u := Step(Step(s).0).0;
      u.reg[r2] == s.reg[r] && u.reg[SP] == s.reg[SP]
  {
    PushOpcodeIsPush(s, r);
    var t := Step(s).0;
    PopOpcodeIsPop(t, r2);
    PushPopRoundTrip(s, s.reg[r]);
  }

  /** CALL r pushes the address of the next instruction (pc + 2) and then
      jumps to the address held in register r, read after the push; nothing
      else changes. */
  lemma CallPushesReturn(s: State, r: byte)
    requires At(s, CALL, r) && r < REG_COUNT
    ensures var t := Push(s, Wrap(s.pc as int + 2));
      Step(s) == (t.(pc := t.reg[r]), Running)
  {
  }

  /** CALL SP jumps to the decremented stack pointer, since the handler reads
      the register after the push has changed it. */
  lemma CallSp(s: State)
    requires At(s, CALL, SP)
    ensures Step(s).1 == Running
    ensures Step(s).0.pc == Wrap(s.reg[SP] as int - 1)
    ensures Step(s).0.reg[SP] == Wrap(s.reg[SP] as int - 1)
  {
    CallPushesReturn(s, SP);
  }

  /** RET pops pc and changes nothing else but SP. */
  lemma RetPops(s: State)
    requires RamRead(s, s.pc) == RET
    ensures var (t, v) := Pop(s);
      Step(s) == (t.(pc := v), Running)
  {
  }

  /** A RET reached with the stack as CALL left it returns to the address
      after the CALL and gives SP back its pre-CALL value. */
  lemma CallThenRet(s: State, r: byte, u: State)
    requires At(s, CALL, r) && r < REG_COUNT
    requires RamRead(u, u.pc) == RET
    requires u.reg[SP] == Step(s).0.reg[SP]
    requires u.ram[u.reg[SP]] == Step(s).0.ram[u.reg[SP]]
    ensures Step(u).1 == Running
    ensures Step(u).0.pc == Wrap(s.pc as int + 2)
    ensures Step(u).0.reg[SP] == s.reg[SP]
  {
    CallPushesReturn(s, r);
    RetPops(u);
    var sp := s.reg[SP];
    WrapWrap(sp as int - 1, 1);
    assert Wrap(u.reg[SP] as int + 1) == sp;
    assert Pop(u).1 == Wrap(s.pc as int + 2);
  }

  /** CMP sets the flags to exactly 1 when the registers are equal and to
      exactly 0 otherwise; nothing else changes but pc. */
  lemma CmpSetsEqualFlag(s: State, a: byte, b: byte)
    requires At2(s, CMP, a, b) && a < REG_COUNT && b < REG_COUNT
    ensures Step(s) == (s.(fl := if s.reg[a] == s.reg[b] then 1 else 0,
                           pc := Wrap(s.pc as int + 3)), Running)
    ensures FlagSet(Step(s).0.fl, FLAG_E) <==> s.reg[a] == s.reg[b]
  {
  }

  /** JMP r always jumps to reg[r]. */
  lemma JmpJumps(s: State, r: byte)
    requires At(s, JMP, r) && r < REG_COUNT
    ensures Step(s) == (s.(pc := s.reg[r]), Running)
  {
  }

  /** JEQ r jumps to reg[r] exactly when the Equal flag is set, and
      otherwise moves pc past its one operand. */
  lemma JeqBranches(s: State, r: byte)
    requires At(s, JEQ, r) && (FlagSet(s.fl, FLAG_E) ==> r < REG_COUNT)
    ensures Step(s).1 == Running
    ensures Step(s).0 == s.(pc := if FlagSet(s.fl, FLAG_E) then s.reg[r] else Wrap(s.pc as int + 2))
  {
  }

  /** JNE r jumps to reg[r] exactly when the Equal flag is clear. */
  lemma JneBranches(s: State, r: byte)
    requires At(s, JNE, r) && (!FlagSet(s.fl, FLAG_E) ==> r < REG_COUNT)
    ensures Step(s).1 == Running
    ensures Step(s).0 == s.(pc := if !FlagSet(s.fl, FLAG_E) then s.reg[r] else Wrap(s.pc as int + 2))
  {
  }

  /** CMP a, b followed by JEQ r jumps to reg[r] exactly when reg[a] == reg[b],
      and otherwise falls through to the instruction after the JEQ. */
  lemma CmpThenJeq(s: State, a: byte, b: byte, r: byte)
    requires At2(s, CMP, a, b) && a < REG_COUNT && b < REG_COUNT && r < REG_COUNT
    requires RamRead(s, Wrap(s.pc as int + 3)) == JEQ && RamRead(s, Wrap(s.pc as int + 4)) == r
    ensures Run(s, 2).1 == Running
    ensures Run(s, 2).0.pc == if s.reg[a] == s.reg[b] then s.reg[r] else Wrap(s.pc as int + 5)
  {
    CmpSetsEqualFlag(s, a, b);
    var t := Step(s).0;
    WrapWrap(s.pc as int + 3, 1);
    WrapWrap(s.pc as int + 3, 2);
    assert At(t, JEQ, r);
    JeqBranches(t, r);
    RunFirstStep(s, 2);
    RunFirstStep(t, 1);
  }

  /** An unknown opcode stops the loop at once, reporting pc and the opcode,
      with the machine exactly as it was before the fetch. */
  lemma IllegalStops(s: State, fuel: nat)
    requires !Known(RamRead(s, s.pc)) && fuel > 0
    ensures Run(s, fuel) == (s, Illegal(s.pc, RamRead(s, s.pc)))
  {
  }

  // ---------------------------------------------------------------------
  // The loop as a whole

  /** Once the loop has stopped, more fuel changes nothing. */
  lemma {:induction false} RunStable(s: State, fuel: nat, more: nat)
    requires Run(s, fuel).1 != Running
    ensures Run(s, fuel + more) == Run(s, fuel)
    decreases fuel
  {
    var (t, o) := Step(s);
    if o == Running {
      RunStable(t, fuel - 1, more);
    }
  }

  /** Running m steps and then n steps is running m + n steps. */
  lemma {:induction false} RunAppend(s: State, m: nat, n: nat)
    requires Run(s, m).1 == Running
    ensures Run(s, m + n) == Run(Run(s, m).0, n)
    decreases m
  {
    if m > 0 {
      var (t, o) := Step(s);
      RunAppend(t, m - 1, n);
    }
  }

  /** A JMP to its own address never halts: no amount of fuel suffices,
      which is why the loop is modelled with fuel. */
  lemma {:induction false} JumpToSelfRunsForever(s: State, r: byte, fuel: nat)
    requires At(s, JMP, r) && r < REG_COUNT && s.reg[r] == s.pc
    ensures Run(s, fuel) == (s, Running)
    decreases fuel
  {
    if fuel > 0 {
      JmpJumps(s, r);
      JumpToSelfRunsForever(s, r, fuel - 1);
    }
  }

  // ---------------------------------------------------------------------
  // Initialisation

  /** A program that is a lone HLT at the entry address stops after one
      step, having printed nothing and changed nothing but pc. */
  lemma HaltOnlyProgram(s: State, fuel: nat)
    requires fuel > 0
    ensures var p := RamWrite(Init(s), ADDR_PROGRAM_ENTRY, HLT);
      Run(p, fuel) == (p.(pc := 1), Halted)
  {
    var p := RamWrite(Init(s), ADDR_PROGRAM_ENTRY, HLT);
    HaltStops(p, fuel);
  }
}
