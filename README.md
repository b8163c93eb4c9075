# LS-8 execution engine, modelled and verified in Dafny

This project models the execution engine of an LS-8 style byte-code CPU
(`cpu.c`). The machine has a 256-byte memory, eight byte registers (register 7
is the stack pointer SP), a program counter and a flags byte. Its operations
are byte-addressed memory read and write, a downward-growing stack (push
decrements SP and then writes; pop reads and then increments SP), an ALU with
8-bit MUL and ADD, and the fetch/decode/execute loop `cpu_run` over 13
opcodes. The loop always fetches the opcode and two operand bytes. After an
instruction it advances `pc` by `(IR >> 6) + 1`, unless bit 4 of the opcode
says the instruction set `pc` itself. `cpu_init` resets the machine.

Files:

- `isa.dfy` (module `Isa`): the `byte` type (0..255) with explicit modulo-256
  wrap-around (`Wrap`). It also holds the named constants (`SP` = 7, empty
  stack 0xF4, program entry 0, `FLAG_E` = 1, the opcode values) and the opcode
  bit decoding (`SetsPc` for bit 4, `Width` for `(IR >> 6) + 1`). Finally it
  defines the `Outcome` of a step: `Running`, `Halted`, `Illegal(pc, ir)` or
  `BadRegister(pc, ir, index)`.
- `machine.dfy` (module `Machine`): the machine as an immutable `State` value.
  Each operation is a function over it: `RamRead`, `RamWrite`, `Push`, `Pop`,
  `Alu`, `Execute` (the switch), `Step` (one loop iteration), `Run` (the loop,
  bounded by fuel) and `Init`.
- `cpu.dfy` (module `Emulator`): class `Cpu`. Its memory and registers are
  arrays and `pc`, `fl` are fields. The methods change them in place, as the C
  functions change `struct cpu`. Each method's postcondition equates the new
  abstract state with the matching `Machine` function applied to the old
  state.
- `properties.dfy` (module `MachineFacts`): lemmas about the `Machine`
  functions. Through the method postconditions they hold of the class too.

Where the model follows the code rather than its documentation:

- The `ADD` opcode invokes `ALU_MUL` (cpu.c:132-134). The model reproduces
  this defect, so the `ALU_ADD` branch of `alu` cannot be reached from the
  loop. `MachineFacts.AddOnTwoHundredFiftyAndTen` shows its effect: ADD on 250
  and 10 leaves 196, where an addition would leave 4.
- The inline `PUSH` and `POP` handlers (cpu.c:136-144) are modelled as
  written, not as calls to `cpu_push`/`cpu_pop`. They agree with the helpers
  except when the operand register is SP.
- `CALL` reads its target register after pushing the return address
  (cpu.c:147-148), so `CALL SP` jumps to the decremented stack pointer.
- `alu` ignores an operation it does not implement. It does not report an
  error.
- `cpu_init` zeroes memory twice. It never zeroes the registers, despite its
  comment (cpu.c:231-234). Registers other than SP keep their values.
- Only the Equal bit of the flags is ever set. `CMP` stores exactly 1 or 0.

Modelling choices:

- The header that declares the constants is not part of this model. The values
  used are the LS-8 ones listed above.
- `pc` is a byte: `pc + 1`, `pc + 2` and the advance all wrap at 256.
- Indexing `reg` with an operand of 8 or more is undefined behaviour in C. The
  model reports it as `BadRegister(pc, ir, index)` and changes nothing. The
  check is made only where a handler actually indexes a register (`JEQ` and
  `JNE` only when they jump).
- `PRN` appends the register's byte to an output sequence `out`.
- An unknown opcode yields `Illegal(pc, ir)` in place of the message and exit.

## Model

| member | source | states |
|---|---|---|
| Emulator.Cpu.RamRead | cpu.c:13-16 | returns the memory cell at the 8-bit address; every address is in bounds |
| Emulator.Cpu.RamWrite | cpu.c:20-23 | the addressed cell holds the value afterwards and every other cell is unchanged |
| Emulator.Cpu.Push | cpu.c:26-30 | SP becomes SP - 1 (mod 256) and the cell at the new SP holds the value |
| Emulator.Cpu.Pop | cpu.c:33-39 | returns the cell at the old SP and SP becomes SP + 1 (mod 256) |
| Emulator.Cpu.Alu | cpu.c:82-94 | the new state is the ALU function of the old one (product, sum, or no change) |
| Emulator.Cpu.Execute | cpu.c:114-208 | the state after the switch on the opcode equals the handler function, including the Illegal case |
| Emulator.Cpu.Step | cpu.c:104-217 | one loop iteration (fetch, dispatch, pc advance) equals Machine.Step of the old state |
| Emulator.Cpu.Run | cpu.c:99-219 | the loop with at most fuel iterations equals Machine.Run of the old state |
| Emulator.Cpu.ZeroRam | cpu.c:233-234 | memset(ram, 0, n): the first n cells are 0 and the rest are unchanged |
| Emulator.Cpu.Init | cpu.c:224-235 | the new state is Machine.Init of the old one |
| Machine.Step | cpu.c:103-217 | a faulting step leaves the machine unchanged; the step is Illegal exactly when the opcode is unknown, and then reports pc and the opcode; it is BadRegister exactly when the handler would index the register file with an operand of 8 or more |
| Machine.RamWrite | cpu.c:20-23 | reading the written address returns the value, other addresses read as before, and nothing but memory changes |
| Machine.Push | cpu.c:26-30 | push leaves SP at old SP - 1 mod 256, writes the value at the new SP and no other cell, and changes no other register, pc, flags or output |
| Machine.Pop | cpu.c:33-39 | pop returns the cell at the old SP, leaves SP at old SP + 1 mod 256, and changes neither memory nor any other register, pc, flags or output |
| MachineFacts.PushPopRoundTrip | cpu.c:26-39 | pop after push returns the pushed byte and restores every register, SP included |
| Machine.Alu | cpu.c:82-94 | MUL stores reg[a]*reg[b] mod 256 and ADD stores reg[a]+reg[b] mod 256 in reg[a]; nothing else changes; other operations change nothing |
| MachineFacts.SetsPcExactlyForControlFlow | cpu.c:212-216 | among the known opcodes bit 4 is set exactly for CALL, RET, JMP, JEQ and JNE; widths are 1, 2 or 3 as the top bits say |
| MachineFacts.AutoAdvance | cpu.c:212-216 | after a non-faulting step on an opcode with bit 4 clear, pc is old pc + (IR >> 6) + 1 mod 256 |
| MachineFacts.HaltStops | cpu.c:120-122 | HLT changes only pc (advanced by one), and the loop stops there for any fuel |
| MachineFacts.LdiLoads | cpu.c:124-126 | LDI r, v sets reg[r] to v, advances pc by 3, and changes nothing else |
| MachineFacts.PrnPrints | cpu.c:116-118 | PRN r emits reg[r], advances pc by 2, and changes nothing else |
| MachineFacts.LdiThenPrn | cpu.c:116-126 | LDI r, v followed by PRN r emits v |
| MachineFacts.MulAndAddMultiply | cpu.c:128-134 | both MUL and ADD store the product mod 256 in the first register |
| MachineFacts.AddOnTwoHundredFiftyAndTen | cpu.c:132-134 | ADD on 250 and 10 leaves 196, while the ALU's addition would leave 4 |
| MachineFacts.PushOpcodeIsPush | cpu.c:136-139 | PUSH r with r other than SP has the effect of cpu_push(reg[r]) plus the pc advance |
| MachineFacts.PopOpcodeIsPop | cpu.c:141-144 | POP r with r other than SP has the effect of reg[r] := cpu_pop() plus the pc advance |
| MachineFacts.PushSpStoresDecrementedSp | cpu.c:136-139 | PUSH SP stores the decremented SP, where cpu_push(reg[SP]) would store the old SP |
| MachineFacts.PopSpKeepsPoppedPlusOne | cpu.c:141-144 | POP SP leaves the popped byte plus one in SP |
| MachineFacts.PushThenPop | cpu.c:136-144 | PUSH r then POP r2 (neither SP) copies reg[r] into r2 and restores SP |
| MachineFacts.CallPushesReturn | cpu.c:146-149 | CALL r, for every register r including SP, is exactly cpu_push(pc + 2) followed by pc := reg[r] read after the push; nothing else changes |
| MachineFacts.CallSp | cpu.c:146-149 | CALL SP jumps to the decremented stack pointer, because reg[SP] is read after the push |
| MachineFacts.RetPops | cpu.c:151-153 | RET sets pc to the popped byte and changes nothing but SP |
| MachineFacts.CallThenRet | cpu.c:146-153 | for any register operand of CALL, SP included, a RET reached with the stack as CALL left it returns to the CALL's address + 2 and restores SP |
| MachineFacts.CmpSetsEqualFlag | cpu.c:155-169 | CMP sets fl to exactly 1 if the registers are equal and 0 otherwise, and changes nothing but pc |
| MachineFacts.JmpJumps | cpu.c:171-176 | JMP r sets pc to reg[r] and changes nothing else |
| MachineFacts.JeqBranches | cpu.c:178-189 | JEQ r sets pc to reg[r] exactly when the Equal bit is set, and to pc + 2 otherwise |
| MachineFacts.JneBranches | cpu.c:191-202 | JNE r sets pc to reg[r] exactly when the Equal bit is clear, and to pc + 2 otherwise |
| MachineFacts.CmpThenJeq | cpu.c:155-189 | CMP a, b then JEQ r jumps to reg[r] iff reg[a] == reg[b], and otherwise falls through to the next instruction |
| MachineFacts.IllegalStops | cpu.c:205-207 | an unknown opcode ends the run at once, reporting pc and the opcode, with the state unchanged |
| MachineFacts.RunStable | cpu.c:101-103 | once the loop has stopped, more fuel gives the same result |
| MachineFacts.RunAppend | cpu.c:101-103 | running m and then n iterations equals running m + n |
| MachineFacts.JumpToSelfRunsForever | cpu.c:171-176 | a JMP to its own address never stops, for any fuel |
| Machine.Init | cpu.c:224-235 | init sets pc to the entry address, fl to 0, SP to 0xF4, every memory cell to 0, and keeps the other registers |
| MachineFacts.HaltOnlyProgram | cpu.c:120-122 | a lone HLT at the entry address halts after one step with no output and no change but pc = 1 |

## Left out

- `cpu_load` (cpu.c:45-77): reading the program file (`fopen`, `fgets`, `strtol`, `exit(2)`) is host I/O. Memory contents come in through the `Cpu` constructor or `RamWrite`.
- Output formatting: `PRN` (cpu.c:117) and the unknown-instruction message (cpu.c:206) print text. The model records the printed byte in `out` and returns `Illegal(pc, ir)` in place of the message and the process exit.
- Less-than and Greater-than flags: they appear only in comments (cpu.c:159-160) and are never set.
- Unbounded execution: `while (running)` may never end, for example on a JMP to itself. `Run` takes a fuel bound, and `JumpToSelfRunsForever` shows that no bound suffices for such a program.
- Out-of-range register operands: in C they are undefined behaviour. The model does not guess what memory such an access would touch. It stops with `BadRegister`.
- Uninitialised storage: the `Cpu` constructor takes the initial memory and register contents as parameters, since C leaves them indeterminate.
